/**
 Splitting a bulk publication into calls the native layer accepts: greedily, in order, and with
 no more calls than necessary.
 */
module Chunking {
  import opened Options

  const MAX_MESSAGES: nat := 256
  const MAX_PAYLOAD_BYTES: nat := 1_048_576

  datatype Message = Message(id: nat, payloadBytes: nat)

  function Payload(chunk: seq<Message>): nat {
    if chunk == [] then 0 else Payload(chunk[..|chunk| - 1]) + chunk[|chunk| - 1].payloadBytes
  }

  // What the native conversion accepts in one call.
  predicate Fits(chunk: seq<Message>) {
    |chunk| <= MAX_MESSAGES && Payload(chunk) <= MAX_PAYLOAD_BYTES
  }

  // One message too large for any call.
  predicate Hopeless(chunk: seq<Message>) {
    |chunk| == 1 && chunk[0].payloadBytes > MAX_PAYLOAD_BYTES
  }

  function Flatten(chunks: seq<seq<Message>>): seq<Message> {
    if chunks == [] then [] else chunks[0] + Flatten(chunks[1..])
  }

  // ---------------------------------------------------------------- native check

  lemma PayloadAppend(chunk: seq<Message>, m: Message)
    ensures Payload(chunk + [m]) == Payload(chunk) + m.payloadBytes
  {
    assert (chunk + [m])[..|chunk|] == chunk;
  }

  lemma {:induction false} PayloadConcat(a: seq<Message>, b: seq<Message>)
    ensures Payload(a + b) == Payload(a) + Payload(b)
  {
    if b == [] {
      assert a + b == a;
    } else {
      var n := |b| - 1;
      assert (a + b)[..|a| + n] == a + b[..n];
      PayloadConcat(a, b[..n]);
    }
  }

  // The conversion rejects as soon as the running total is too high; the totals only grow.
  method Accepts(chunk: seq<Message>) returns (ok: bool)
    ensures ok <==> Fits(chunk)
  {
    if |chunk| > MAX_MESSAGES {
      return false;
    }
    var payloadBytes := 0;
    for i := 0 to |chunk|
      invariant payloadBytes == Payload(chunk[..i]) <= MAX_PAYLOAD_BYTES
    {
      assert chunk[..i + 1] == chunk[..i] + [chunk[i]];
      PayloadAppend(chunk[..i], chunk[i]);
      payloadBytes := payloadBytes + chunk[i].payloadBytes;
      if payloadBytes > MAX_PAYLOAD_BYTES {
        assert chunk == chunk[..i + 1] + chunk[i + 1..];
        PayloadConcat(chunk[..i + 1], chunk[i + 1..]);
        return false;
      }
    }
    assert chunk[..|chunk|] == chunk;
    return true;
  }

  // ---------------------------------------------------------------- the chunker

  // No chunk has room for the message after it.
  ghost predicate Packed(chunks: seq<seq<Message>>) {
    && (forall c :: c in chunks ==> c != [])
    && (forall i :: 0 <= i < |chunks| - 1 && chunks[i + 1] != [] ==> !Fits(chunks[i] + [chunks[i + 1][0]]))
  }

  lemma {:induction false} FlattenAppend(chunks: seq<seq<Message>>, chunk: seq<Message>)
    ensures Flatten(chunks + [chunk]) == Flatten(chunks) + chunk
  {
    if chunks == [] {
      assert chunks + [chunk] == [chunk] && [chunk][1..] == [];
    } else {
      assert (chunks + [chunk])[1..] == chunks[1..] + [chunk];
      FlattenAppend(chunks[1..], chunk);
    }
  }

  lemma PackedAppend(chunks: seq<seq<Message>>, m: Message)
    requires Packed(chunks) && chunks != [] && !Fits(chunks[|chunks| - 1] + [m])
    ensures Packed(chunks + [[m]])
  {
  }

  // The open chunk takes one more message.
  lemma PackedGrow(chunks: seq<seq<Message>>, chunk: seq<Message>, m: Message)
    requires Packed(chunks + [chunk])
    ensures Packed(chunks + [chunk + [m]])
  {
    var before, after := chunks + [chunk], chunks + [chunk + [m]];
    forall c | c in after ensures c != [] {
      if c in chunks {
        assert c in before;
      }
    }
    forall i | 0 <= i < |after| - 1 && after[i + 1] != [] ensures !Fits(after[i] + [after[i + 1][0]]) {
      assert before[i + 1] in before;
      assert after[i] == before[i] && after[i + 1][0] == before[i + 1][0];
    }
  }

  // The chunks of `done`, the last of them still open.
  ghost predicate Chunked(done: seq<Message>, chunks: seq<seq<Message>>, chunk: seq<Message>) {
    && Flatten(chunks) + chunk == done
    && (chunk == [] ==> chunks == [])
    && (chunk != [] ==> Packed(chunks + [chunk]))
    && (forall c :: c in chunks ==> Fits(c) || Hopeless(c))
    && (Fits(chunk) || Hopeless(chunk))
  }

  // A chunk with one message is accepted or hopeless.
  lemma Alone(m: Message)
    ensures Payload([m]) == m.payloadBytes && (Fits([m]) || Hopeless([m]))
  {
    PayloadAppend([], m);
    assert [] + [m] == [m];
  }

  lemma ChunkedClose(done: seq<Message>, chunks: seq<seq<Message>>, chunk: seq<Message>, m: Message)
    requires Chunked(done, chunks, chunk) && chunk != [] && !Fits(chunk + [m])
    ensures Chunked(done + [m], chunks + [chunk], [m])
  {
    Alone(m);
    FlattenAppend(chunks, chunk);
    PackedAppend(chunks + [chunk], m);
  }

  lemma ChunkedGrow(done: seq<Message>, chunks: seq<seq<Message>>, chunk: seq<Message>, m: Message)
    requires Chunked(done, chunks, chunk) && (chunk == [] || Fits(chunk + [m]))
    ensures Chunked(done + [m], chunks, chunk + [m])
  {
    if chunk == [] {
      Alone(m);
      assert chunk + [m] == [m] && chunks + [[m]] == [[m]];
    } else {
      PackedGrow(chunks, chunk, m);
    }
    assert Flatten(chunks) + (chunk + [m]) == done + [m];
  }

  /** Nothing is lost or reordered; every chunk is accepted by the native layer, unless it is one message
      that is too large by itself; and no chunk has room for the next message. */
  method ChunkWithinBounds(messages: seq<Message>) returns (chunks: seq<seq<Message>>)
    ensures Flatten(chunks) == messages
    ensures Packed(chunks)
    ensures forall c :: c in chunks ==> Fits(c) || Hopeless(c)
  {
    chunks := [];
    var chunk: seq<Message> := [];
    var chunkPayloadBytes := 0;
    for i := 0 to |messages|
      invariant Chunked(messages[..i], chunks, chunk) && chunkPayloadBytes == Payload(chunk)
    {
      var m := messages[i];
      PayloadAppend(chunk, m);
      assert messages[..i + 1] == messages[..i] + [m];
      if chunk != [] && (|chunk| >= MAX_MESSAGES || chunkPayloadBytes + m.payloadBytes > MAX_PAYLOAD_BYTES) {
        ChunkedClose(messages[..i], chunks, chunk, m);
        Alone(m);
        chunks := chunks + [chunk];
        chunk := [m];
        chunkPayloadBytes := m.payloadBytes;
      } else {
        ChunkedGrow(messages[..i], chunks, chunk, m);
        chunk := chunk + [m];
        chunkPayloadBytes := chunkPayloadBytes + m.payloadBytes;
      }
    }
    assert messages[..|messages|] == messages;
    if chunk != [] {
      FlattenAppend(chunks, chunk);
      chunks := chunks + [chunk];
    }
  }

  // ---------------------------------------------------------------- optimality

  // Part of what fits, fits.
  lemma PartFits(a: seq<Message>, b: seq<Message>, c: seq<Message>)
    requires Fits(a + b + c)
    ensures Fits(b)
  {
    PayloadConcat(a + b, c);
    PayloadConcat(a, b);
  }

  // A packed list begins with its first chunk and the message that did not fit it.
  lemma FirstTwo(chunks: seq<seq<Message>>)
    requires Packed(chunks) && |chunks| >= 2
    ensures chunks[1] != [] && |Flatten(chunks)| > |chunks[0]|
    ensures Flatten(chunks)[..|chunks[0]| + 1] == chunks[0] + [chunks[1][0]]
  {
    assert chunks[1] in chunks;
    assert Flatten(chunks) == chunks[0] + (chunks[1] + Flatten(chunks[1..][1..]));
  }

  // A part of the whole that reaches `k` messages into `flat` contains its first `k`.
  lemma PartReaches(part: seq<Message>, others: seq<Message>, ahead: seq<Message>, flat: seq<Message>, k: nat)
    requires part + others == ahead + flat && k <= |flat| && |part| >= |ahead| + k
    ensures part == part[..|ahead|] + flat[..k] + part[|ahead| + k..]
  {
    forall i | 0 <= i < k ensures part[|ahead| + i] == flat[i] {
      assert part[|ahead| + i] == (part + others)[|ahead| + i] == (ahead + flat)[|ahead| + i];
    }
  }

  // The first part of a split that is no further than a packed chunk list cannot get ahead of it.
  lemma FirstNotAhead(
      chunks: seq<seq<Message>>, part: seq<Message>, others: seq<Message>, ahead: seq<Message>)
    requires Packed(chunks) && |chunks| >= 2 && Fits(part)
    requires part + others == ahead + Flatten(chunks)
    ensures |part| <= |ahead| + |chunks[0]|
  {
    var k := |chunks[0]| + 1;
    if |part| >= |ahead| + k {
      FirstTwo(chunks);
      PartReaches(part, others, ahead, Flatten(chunks), k);
      PartFits(part[..|ahead|], Flatten(chunks)[..k], part[|ahead| + k..]);
    }
  }

  lemma PackedRest(chunks: seq<seq<Message>>)
    requires Packed(chunks) && chunks != []
    ensures Packed(chunks[1..])
  {
    var rest := chunks[1..];
    forall c | c in rest ensures c != [] {
      assert c in chunks;
    }
    forall i | 0 <= i < |rest| - 1 && rest[i + 1] != [] ensures !Fits(rest[i] + [rest[i + 1][0]]) {
      assert rest[i] == chunks[i + 1] && rest[i + 1] == chunks[i + 1 + 1];
    }
  }

  lemma {:induction false} NoShorterSplit(
      chunks: seq<seq<Message>>, split: seq<seq<Message>>, ahead: seq<Message>)
    requires Packed(chunks) && forall part :: part in split ==> Fits(part)
    requires Flatten(split) == ahead + Flatten(chunks)
    ensures |chunks| <= |split|
    decreases |split|
  {
    assert chunks != [] ==> chunks[0] in chunks && Flatten(chunks) != [];
    if chunks != [] && split != [] {
      var part, others := split[0], Flatten(split[1..]);
      var behind := Flatten(chunks[1..]);
      assert part in split;
      if |chunks| >= 2 {
        FirstNotAhead(chunks, part, others, ahead);
      } else {
        assert chunks[1..] == [];
      }
      var whole := part + others;
      assert others == whole[|part|..];
      assert behind == whole[|whole| - |behind|..];
      var gap := |others| - |behind|;
      assert others == others[..gap] + behind;
      PackedRest(chunks);
      NoShorterSplit(chunks[1..], split[1..], others[..gap]);
    }
  }

  /** The greedy chunks are as few as possible: no split of the same messages, in the same order, into
      parts the native layer accepts has fewer parts. */
  lemma GreedyIsOptimal(messages: seq<Message>, chunks: seq<seq<Message>>, split: seq<seq<Message>>)
    requires Flatten(chunks) == messages && Packed(chunks)
    requires Flatten(split) == messages && forall part :: part in split ==> Fits(part)
    ensures |chunks| <= |split|
  {
    assert [] + messages == messages;
    NoShorterSplit(chunks, split, []);
  }

  // ---------------------------------------------------------------- publishing

  function Ids(messages: seq<Message>): seq<nat> {
    seq(|messages|, i requires 0 <= i < |messages| => messages[i].id)
  }

  // The identifiers of the first `i` chunks.
  function IdsOf(chunks: seq<seq<Message>>, i: nat): seq<nat>
    requires i <= |chunks|
  {
    if i == 0 then [] else IdsOf(chunks, i - 1) + Ids(chunks[i - 1])
  }

  lemma {:induction false} IdsOfFlat(chunks: seq<seq<Message>>, i: nat)
    requires i <= |chunks|
    ensures IdsOf(chunks, i) == Ids(Flatten(chunks[..i]))
    decreases i
  {
    if i > 0 {
      IdsOfFlat(chunks, i - 1);
      FlattenAppend(chunks[..i - 1], chunks[i - 1]);
      assert chunks[..i] == chunks[..i - 1] + [chunks[i - 1]];
    }
  }

  // The native calls made are the first chunks of a packed split of the messages.
  ghost predicate Begins(calls: seq<seq<Message>>, messages: seq<Message>) {
    exists chunks :: Flatten(chunks) == messages && Packed(chunks) && calls <= chunks
  }

  datatype Published = Published(ids: seq<nat>) | Stopped(error: nat)

  /** One native call per chunk, until one fails: `answer` gives the error of the i-th call, if it has one.
      The identifiers come back in the order of the messages. A call that fails keeps what the calls before
      it have published, a prefix of the messages, and no later chunk is tried. */
  method PublishChunked(messages: seq<Message>, answer: nat -> Option<nat>)
    returns (r: Published, calls: seq<seq<Message>>)
    ensures r.Published? ==>
              && r.ids == Ids(messages) && Flatten(calls) == messages && Packed(calls)
              && forall i :: 0 <= i < |calls| ==> answer(i) == None
    ensures r.Stopped? ==>
              && calls != [] && answer(|calls| - 1) == Some(r.error)
              && (forall i :: 0 <= i < |calls| - 1 ==> answer(i) == None)
              && Begins(calls, messages)
  {
    var chunks := ChunkWithinBounds(messages);
    var ids := [];
    for i := 0 to |chunks|
      invariant ids == IdsOf(chunks, i)
      invariant forall j :: 0 <= j < i ==> answer(j) == None
    {
      if answer(i).Some? {
        return Stopped(answer(i).value), chunks[..i + 1];
      }
      ids := ids + Ids(chunks[i]);
    }
    IdsOfFlat(chunks, |chunks|);
    assert chunks[..|chunks|] == chunks;
    return Published(ids), chunks;
  }
}
