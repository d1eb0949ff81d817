/**
 Attempt counting: what a delivery's headers say about how often it has been tried, the headers
 a delayed release is republished with, and why releasing cannot go on for ever under a cap.
 */
module Attempts {
  import opened Options
  import opened Deliveries

  const U32_MAX: nat := 0xFFFF_FFFF
  const APPLICATION_ATTEMPTS: string := "x-rabbit-rs-attempts"
  const ACQUIRED_COUNT: string := "x-acquired-count"
  const DELIVERY_COUNT: string := "x-delivery-count"

  type Byte = b: nat | b < 256

  datatype HeaderValue = Integer(value: int) | Binary(bytes: seq<Byte>) | Other

  type Headers = map<string, HeaderValue>

  datatype Resolved = Resolved(attempts: nat) | TooMany(attempts: nat)

  predicate AboveCap(maxAttempts: Option<nat>, attempts: nat) {
    maxAttempts.Some? && attempts > maxAttempts.value
  }

  // ---------------------------------------------------------------- counters in headers

  predicate IsDigit(b: Byte) {
    48 <= b <= 57
  }

  function Decimal(digits: seq<Byte>): nat
    requires forall b :: b in digits ==> IsDigit(b)
  {
    if digits == [] then 0 else
      var last := digits[|digits| - 1];
      assert IsDigit(last);
      10 * Decimal(digits[..|digits| - 1]) + (last - 48)
  }

  // Parsing a `u32`: an optional plus sign, at least one digit, no overflow.
  function ParseCount(text: seq<Byte>): Option<nat> {
    var digits := if |text| > 1 && text[0] == 43 then text[1..] else text;
    if digits == [] || exists b :: b in digits && !IsDigit(b) then None
    else if Decimal(digits) > U32_MAX then None
    else Some(Decimal(digits))
  }

  function HeaderCount(headers: Headers, name: string): Option<nat> {
    if name !in headers then None
    else
      match headers[name]
      case Integer(value) => if 0 <= value <= U32_MAX then Some(value) else None
      case Binary(bytes) => ParseCount(bytes)
      case Other => None
  }

  function Max(a: nat, b: nat): nat {
    if a < b then b else a
  }

  function Successor(attempts: nat): nat {
    if attempts >= U32_MAX then U32_MAX else attempts + 1
  }

  // Acquisitions count as they are; failed deliveries need one more for the delivery at hand.
  function BrokerAttempts(headers: Headers, redelivered: bool): nat {
    match HeaderCount(headers, ACQUIRED_COUNT)
    case Some(acquired) => Max(acquired, 1)
    case None =>
      match HeaderCount(headers, DELIVERY_COUNT)
      case Some(failed) => Successor(failed)
      case None => if redelivered then 2 else 1
  }

  function Count(headers: Headers, redelivered: bool): nat {
    var application := match HeaderCount(headers, APPLICATION_ATTEMPTS) case Some(n) => n case None => 1;
    Max(Max(BrokerAttempts(headers, redelivered), application), 1)
  }

  function Validate(maxAttempts: Option<nat>, attempts: nat): Resolved {
    if AboveCap(maxAttempts, attempts) then TooMany(attempts) else Resolved(attempts)
  }

  function Resolve(maxAttempts: Option<nat>, headers: Headers, redelivered: bool): (r: Resolved)
    ensures 1 <= r.attempts <= U32_MAX
    ensures r.Resolved? && maxAttempts.Some? ==> r.attempts <= maxAttempts.value
  {
    Validate(maxAttempts, Count(headers, redelivered))
  }

  // ---------------------------------------------------------------- delayed release

  // The broker's own counters are dropped: the copy starts a new life on the broker.
  function DelayedHeaders(maxAttempts: Option<nat>, headers: Headers, attempts: nat): Option<Headers> {
    match Validate(maxAttempts, Successor(attempts))
    case TooMany(_) => None
    case Resolved(next) =>
      Some((headers - {ACQUIRED_COUNT, DELIVERY_COUNT})[APPLICATION_ATTEMPTS := Integer(next)])
  }

  // What may come back: the broker adds or changes its own counters, nothing else.
  predicate Redelivery(sent: Headers, received: Headers) {
    received - {ACQUIRED_COUNT, DELIVERY_COUNT} == sent - {ACQUIRED_COUNT, DELIVERY_COUNT}
  }

  lemma RedeliveryKeepsCount(sent: Headers, received: Headers)
    requires Redelivery(sent, received)
    ensures HeaderCount(received, APPLICATION_ATTEMPTS) == HeaderCount(sent, APPLICATION_ATTEMPTS)
  {
    var own := {ACQUIRED_COUNT, DELIVERY_COUNT};
    assert APPLICATION_ATTEMPTS !in own;
    assert APPLICATION_ATTEMPTS in received <==> APPLICATION_ATTEMPTS in received - own;
    assert APPLICATION_ATTEMPTS in sent <==> APPLICATION_ATTEMPTS in sent - own;
    if APPLICATION_ATTEMPTS in sent {
      assert (received - own)[APPLICATION_ATTEMPTS] == received[APPLICATION_ATTEMPTS];
      assert (sent - own)[APPLICATION_ATTEMPTS] == sent[APPLICATION_ATTEMPTS];
    }
  }

  /** A released copy always comes back with a higher count, whatever counters the broker puts on it;
      with exactly one more if it puts none, even on a redelivery. */
  lemma ReleaseRaisesCount(
      maxAttempts: Option<nat>, headers: Headers, attempts: nat, received: Headers, redelivered: bool)
    requires 1 <= attempts <= U32_MAX
    requires DelayedHeaders(maxAttempts, headers, attempts).Some?
    requires Redelivery(DelayedHeaders(maxAttempts, headers, attempts).value, received)
    ensures Count(received, redelivered) >= Successor(attempts)
    ensures ACQUIRED_COUNT !in received && DELIVERY_COUNT !in received ==>
              Count(received, redelivered) == Successor(attempts)
  {
    var sent := DelayedHeaders(maxAttempts, headers, attempts).value;
    RedeliveryKeepsCount(sent, received);
    assert HeaderCount(sent, APPLICATION_ATTEMPTS) == Some(Successor(attempts));
  }

  /** The life of a message that is released with a delay over and over: `seen[i]` are the headers it
      arrives with the i-th time, and each release succeeds. */
  ghost predicate ReleasedAgain(maxAttempts: Option<nat>, seen: seq<Headers>, flags: seq<bool>) {
    && |flags| == |seen|
    && forall i :: 0 <= i < |seen| - 1 ==>
         && Resolve(maxAttempts, seen[i], flags[i]).Resolved?
         && (var next := DelayedHeaders(maxAttempts, seen[i], Count(seen[i], flags[i]));
             next.Some? && Redelivery(next.value, seen[i + 1]))
  }

  lemma {:induction false} CountsClimb(limit: nat, seen: seq<Headers>, flags: seq<bool>, i: nat)
    requires ReleasedAgain(Some(limit), seen, flags) && i < |seen| && limit < U32_MAX
    ensures Count(seen[i], flags[i]) >= i + 1
    ensures i > 0 ==> i + 1 <= limit
  {
    if i > 0 {
      CountsClimb(limit, seen, flags, i - 1);
      ReleaseRaisesCount(Some(limit), seen[i - 1], Count(seen[i - 1], flags[i - 1]), seen[i], flags[i]);
    }
  }

  // No message is released successfully `limit` times or more.
  ghost predicate ReleasesEnd(limit: nat) {
    forall seen, flags :: ReleasedAgain(Some(limit), seen, flags) ==> |seen| <= limit
  }

  // Headers that say the count is already as high as it can get.
  const SATURATED: Headers := map[APPLICATION_ATTEMPTS := Integer(U32_MAX)]

  // At the highest cap a saturated count is its own successor and never exceeds the cap.
  lemma SaturatedStays()
    ensures Count(SATURATED, false) == U32_MAX
    ensures DelayedHeaders(Some(U32_MAX), SATURATED, U32_MAX) == Some(SATURATED)
  {
    assert SATURATED - {ACQUIRED_COUNT, DELIVERY_COUNT} == SATURATED;
    assert SATURATED[APPLICATION_ATTEMPTS := Integer(U32_MAX)] == SATURATED;
  }

  /** Under a cap of `limit` attempts a message is delay-released at most `limit - 1` times, unless the
      cap is the largest `u32`: then a message can be released for ever. */
  lemma DelayedReleasesEndIff(limit: nat)
    requires 1 <= limit <= U32_MAX
    ensures ReleasesEnd(limit) <==> limit < U32_MAX
  {
    if limit < U32_MAX {
      forall seen, flags | ReleasedAgain(Some(limit), seen, flags) ensures |seen| <= limit {
        if seen != [] {
          CountsClimb(limit, seen, flags, |seen| - 1);
        }
      }
    } else {
      SaturatedStays();
      var seen := seq(limit + 1, i => SATURATED);
      var flags := seq(limit + 1, i => false);
      assert ReleasedAgain(Some(limit), seen, flags);
    }
  }
}
