/**
 Values shared by the consumer model: deliveries as the transport hands them over,
 delivery tokens with their two atomic cells, settlements, and the sequence
 vocabulary (tags, order, byte totals) every invariant is stated in.
 */
module Deliveries {

  const U64_MAX: nat := 0xFFFF_FFFF_FFFF_FFFF

  // `u64::saturating_add` and `u64::saturating_sub`.
  function SatAdd(a: nat, b: nat): nat {
    if a + b > U64_MAX then U64_MAX else a + b
  }

  function SatSub(a: nat, b: nat): nat {
    if a < b then 0 else a - b
  }

  datatype SubscriptionId = SubscriptionId(name: string)

  // A byte buffer never exceeds `isize::MAX` bytes.
  type Length = n: nat | n < 0x8000_0000_0000_0000

  // The connection, generation and channel a delivery was received on.
  datatype Identity = Identity(connectionKey: nat, generation: nat, channelId: nat)

  // A delivery as it arrives: `attempts` is the count its headers resolve to.
  datatype TransportDelivery = TransportDelivery(tag: nat, bytes: Length, attempts: nat)

  datatype DeliveryState = Pending | Acked | Rejected | Lost | AutoAcked

  datatype Settlement = Ack | Release(delay: nat) | Reject(requeue: bool)

  datatype ErrorKind =
    | Closed
    | StaleGeneration
    | AlreadySettled
    | AlreadySettling
    | ChannelFull
    | Transport
    | Publish
    | MissingPublisher
    | InvalidSubscription
    | MaxAttempts
    | InvalidDelay

  // The immutable part of a delivery token; its atomics live in a `Cell`.
  datatype Token = Token(
    subscription: SubscriptionId, identity: Identity, tag: nat, bytes: Length, attempts: nat)

  datatype Cell = Cell(state: DeliveryState, settling: bool)

  // The state a settlement call writes before the actor has seen it.
  function TerminalOf(settlement: Settlement): DeliveryState {
    match settlement
    case Ack => Acked
    case Release(delay) => if delay == 0 then Rejected else Acked
    case Reject(_) => Rejected
  }

  function TagSet(xs: seq<TransportDelivery>): set<nat> {
    if xs == [] then {} else TagSet(xs[..|xs| - 1]) + {xs[|xs| - 1].tag}
  }

  function TokenTags(ts: seq<Token>): set<nat> {
    if ts == [] then {} else TokenTags(ts[..|ts| - 1]) + {ts[|ts| - 1].tag}
  }

  // Tags strictly increase along the line.
  predicate Ascending(xs: seq<TransportDelivery>) {
    |xs| <= 1 || (Ascending(xs[..|xs| - 1]) && xs[|xs| - 2].tag < xs[|xs| - 1].tag)
  }

  function Bytes(xs: seq<TransportDelivery>): nat {
    if xs == [] then 0 else xs[0].bytes + Bytes(xs[1..])
  }

  // Payload total of the deliveries whose tag is not in `gone`.
  function Outstanding(xs: seq<TransportDelivery>, gone: set<nat>): nat {
    if xs == [] then 0 else
      var last := xs[|xs| - 1];
      Outstanding(xs[..|xs| - 1], gone) + if last.tag in gone then 0 else last.bytes
  }

  lemma {:induction false} TagSetHas(xs: seq<TransportDelivery>, d: TransportDelivery)
    requires d in xs
    ensures d.tag in TagSet(xs)
  {
    var n := |xs| - 1;
    if xs[n] != d {
      assert d in xs[..n];
      TagSetHas(xs[..n], d);
    }
  }

  lemma {:induction false} TagSetFind(xs: seq<TransportDelivery>, t: nat) returns (d: TransportDelivery)
    requires t in TagSet(xs)
    ensures d in xs && d.tag == t
  {
    var n := |xs| - 1;
    if xs[n].tag == t {
      d := xs[n];
    } else {
      d := TagSetFind(xs[..n], t);
    }
  }

  lemma TagSetAppend(xs: seq<TransportDelivery>, d: TransportDelivery)
    ensures TagSet(xs + [d]) == TagSet(xs) + {d.tag}
  {
    assert (xs + [d])[..|xs|] == xs;
  }

  lemma {:induction false} TokenTagsHas(ts: seq<Token>, token: Token)
    requires token in ts
    ensures token.tag in TokenTags(ts)
  {
    var n := |ts| - 1;
    if ts[n] != token {
      assert token in ts[..n];
      TokenTagsHas(ts[..n], token);
    }
  }

  lemma {:induction false} TokenTagsFind(ts: seq<Token>, t: nat) returns (token: Token)
    requires t in TokenTags(ts)
    ensures token in ts && token.tag == t
  {
    var n := |ts| - 1;
    if ts[n].tag == t {
      token := ts[n];
    } else {
      token := TokenTagsFind(ts[..n], t);
    }
  }

  lemma TokenTagsAppend(ts: seq<Token>, token: Token)
    ensures TokenTags(ts + [token]) == TokenTags(ts) + {token.tag}
  {
    assert (ts + [token])[..|ts|] == ts;
  }

  lemma {:induction false} AscendingIndex(xs: seq<TransportDelivery>, i: nat, j: nat)
    requires Ascending(xs) && i < j < |xs|
    ensures xs[i].tag < xs[j].tag
  {
    var n := |xs| - 1;
    if j < n {
      AscendingIndex(xs[..n], i, j);
    } else if i < n - 1 {
      AscendingIndex(xs[..n], i, n - 1);
    }
  }

  lemma AscendingAppend(xs: seq<TransportDelivery>, d: TransportDelivery)
    requires Ascending(xs)
    requires forall e :: e in xs ==> e.tag < d.tag
    ensures Ascending(xs + [d])
  {
    assert (xs + [d])[..|xs|] == xs;
    if xs != [] {
      assert xs[|xs| - 1] in xs;
    }
  }

  // Every later delivery has a higher tag than the front.
  lemma RestAbove(xs: seq<TransportDelivery>)
    requires Ascending(xs) && xs != []
    ensures forall d :: d in xs[1..] ==> d in xs && d.tag > xs[0].tag
  {
    forall i | 0 < i < |xs| ensures xs[i].tag > xs[0].tag {
      AscendingIndex(xs, 0, i);
    }
  }

  lemma {:induction false} RestTags(xs: seq<TransportDelivery>)
    requires Ascending(xs) && xs != []
    ensures Ascending(xs[1..]) && TagSet(xs) == {xs[0].tag} + TagSet(xs[1..])
  {
    var n := |xs| - 1;
    if n == 0 {
      assert xs[1..] == [] && xs[..n] == [];
    } else {
      RestTags(xs[..n]);
      assert xs[1..][..n - 1] == xs[..n][1..];
    }
  }

  // Dropping the front of an ascending line removes exactly its tag.
  lemma AscendingRest(xs: seq<TransportDelivery>)
    requires Ascending(xs) && xs != []
    ensures Ascending(xs[1..])
    ensures xs[0].tag in TagSet(xs)
    ensures TagSet(xs[1..]) == TagSet(xs) - {xs[0].tag}
    ensures forall d :: d in xs[1..] ==> d in xs && d.tag > xs[0].tag
  {
    RestAbove(xs);
    RestTags(xs);
    if xs[0].tag in TagSet(xs[1..]) {
      var d := TagSetFind(xs[1..], xs[0].tag);
    }
  }

  lemma {:induction false} AscendingUnique(
      xs: seq<TransportDelivery>, a: TransportDelivery, b: TransportDelivery)
    requires Ascending(xs)
    requires a in xs && b in xs && a.tag == b.tag
    ensures a == b
  {
    var i :| 0 <= i < |xs| && xs[i] == a;
    var j :| 0 <= j < |xs| && xs[j] == b;
    if i < j {
      AscendingIndex(xs, i, j);
    } else if j < i {
      AscendingIndex(xs, j, i);
    }
  }

  lemma {:induction false} BytesConcat(xs: seq<TransportDelivery>, ys: seq<TransportDelivery>)
    ensures Bytes(xs + ys) == Bytes(xs) + Bytes(ys)
  {
    if xs == [] {
      assert xs + ys == ys;
    } else {
      assert (xs + ys)[1..] == xs[1..] + ys;
      BytesConcat(xs[1..], ys);
    }
  }

  lemma BytesAppend(xs: seq<TransportDelivery>, d: TransportDelivery)
    ensures Bytes(xs + [d]) == Bytes(xs) + d.bytes
  {
    BytesConcat(xs, [d]);
    assert [d][1..] == [];
  }

  lemma OutstandingAppend(xs: seq<TransportDelivery>, d: TransportDelivery, gone: set<nat>)
    ensures Outstanding(xs + [d], gone)
         == Outstanding(xs, gone) + if d.tag in gone then 0 else d.bytes
  {
    assert (xs + [d])[..|xs|] == xs;
  }

  lemma {:induction false} OutstandingFrame(xs: seq<TransportDelivery>, gone: set<nat>, more: set<nat>)
    requires forall d :: d in xs ==> (d.tag in gone <==> d.tag in more)
    ensures Outstanding(xs, gone) == Outstanding(xs, more)
  {
    if xs != [] {
      OutstandingFrame(xs[..|xs| - 1], gone, more);
      assert xs[|xs| - 1] in xs;
    }
  }

  // Settling one delivery releases exactly its bytes.
  lemma {:induction false} OutstandingRelease(
      xs: seq<TransportDelivery>, gone: set<nat>, d: TransportDelivery)
    requires Ascending(xs)
    requires d in xs && d.tag !in gone
    ensures Outstanding(xs, gone) == Outstanding(xs, gone + {d.tag}) + d.bytes
  {
    var n := |xs| - 1;
    var init := xs[..n];
    if xs[n] == d {
      forall e | e in init ensures e.tag in gone <==> e.tag in gone + {d.tag} {
        var i :| 0 <= i < n && init[i] == e;
        AscendingIndex(xs, i, n);
      }
      OutstandingFrame(init, gone, gone + {d.tag});
    } else {
      assert d in init;
      var i :| 0 <= i < n && init[i] == d;
      AscendingIndex(xs, i, n);
      OutstandingRelease(init, gone, d);
    }
  }

  lemma {:induction false} OutstandingWitness(xs: seq<TransportDelivery>, gone: set<nat>)
    requires Outstanding(xs, gone) > 0
    ensures exists d :: d in xs && d.tag !in gone
  {
    var n := |xs| - 1;
    if xs[n].tag in gone {
      OutstandingWitness(xs[..n], gone);
      var d :| d in xs[..n] && d.tag !in gone;
      assert d in xs;
    } else {
      assert xs[n] in xs;
    }
  }
}
