/**
 The adaptive prefetch controller, over real numbers: a weighted average of job latencies, and
 a prefetch window that follows it with hysteresis.
 */
module Prefetch {
  import opened Options

  const ALPHA: real := 0.25
  const MIN_SAMPLES: nat := 3
  const HYSTERESIS_DIVISOR: nat := 4
  const U16_MAX: nat := 0xFFFF

  function Ceil(x: real): int {
    -((-x).Floor)
  }

  function Clamp(x: nat, low: nat, high: nat): nat {
    if x < low then low else if x > high then high else x
  }

  // The window that keeps `target` worth of work buffered at the given average latency.
  function Desired(target: real, ewma: real, low: nat, high: nat): nat
    requires target > 0.0 && ewma >= 0.0
  {
    if ewma > 0.0 then
      assert target / ewma > 0.0;
      var wanted := Ceil(target / ewma);
      Clamp(if wanted > U16_MAX then U16_MAX else wanted, low, high)
    else Clamp(U16_MAX, low, high)
  }

  // The ceiling is the least integer that is not below.
  lemma CeilIsLeast(x: real)
    ensures (Ceil(x) - 1) as real < x <= Ceil(x) as real
  {
  }

  // A window covers the target exactly when it is at least the rounded-up quotient.
  lemma CoversIff(target: real, ewma: real, window: nat)
    requires target > 0.0 && ewma > 0.0
    ensures window as real * ewma >= target <==> window >= Ceil(target / ewma)
  {
    var x := target / ewma;
    assert x * ewma == target;
    CeilIsLeast(x);
    if window >= Ceil(x) {
      assert window as real >= x;
      assert window as real * ewma >= x * ewma;
    } else {
      assert window as real <= (Ceil(x) - 1) as real < x;
      assert window as real * ewma < x * ewma;
    }
  }

  // Between the bounds, and `window` jobs of average latency last at least as long as the target.
  predicate Suffices(target: real, ewma: real, low: nat, high: nat, window: nat) {
    low <= window <= high && window as real * ewma >= target
  }

  /** The desired window is the least one within the bounds that keeps `target` worth of work buffered, and
      the upper bound where none does. */
  lemma DesiredIsLeast(target: real, ewma: real, low: nat, high: nat)
    requires target > 0.0 && ewma >= 0.0 && low <= high <= U16_MAX
    ensures low <= Desired(target, ewma, low, high) <= high
    ensures forall window :: Suffices(target, ewma, low, high, window) ==>
              && Suffices(target, ewma, low, high, Desired(target, ewma, low, high))
              && Desired(target, ewma, low, high) <= window
    ensures (forall window :: !Suffices(target, ewma, low, high, window)) ==>
              Desired(target, ewma, low, high) == high
  {
    var desired := Desired(target, ewma, low, high);
    forall window | Suffices(target, ewma, low, high, window)
      ensures Suffices(target, ewma, low, high, desired) && desired <= window
    {
      assert ewma > 0.0;
      CoversIff(target, ewma, window);
      CoversIff(target, ewma, desired);
    }
    if ewma > 0.0 {
      CoversIff(target, ewma, high);
      assert !Suffices(target, ewma, low, high, high) ==> desired == high;
    }
  }

  function Threshold(current: nat): nat {
    if current / HYSTERESIS_DIVISOR < 1 then 1 else current / HYSTERESIS_DIVISOR
  }

  function Distance(a: nat, b: nat): nat {
    if a < b then b - a else a - b
  }

  // The window after a tick: the desired one, unless the current one is close enough.
  function Adjust(current: nat, desired: nat): nat {
    if Distance(desired, current) >= Threshold(current) then desired else current
  }

  /** After a tick the window lies within the hysteresis band of the desired one, and another tick with
      the same desired window changes nothing. */
  lemma AdjustSettles(current: nat, desired: nat)
    ensures Distance(desired, Adjust(current, desired)) < Threshold(Adjust(current, desired))
    ensures Adjust(Adjust(current, desired), desired) == Adjust(current, desired)
  {
  }

  function Smooth(average: real, sample: real): real {
    ALPHA * sample + (1.0 - ALPHA) * average
  }

  // The average after a run of samples, the first of which sets it outright.
  function Average(samples: seq<real>): real
    requires samples != []
  {
    if |samples| == 1 then samples[0]
    else Smooth(Average(samples[..|samples| - 1]), samples[|samples| - 1])
  }

  // The average never leaves the range of what was observed.
  lemma {:induction false} AverageWithin(samples: seq<real>, low: real, high: real)
    requires samples != [] && forall i :: 0 <= i < |samples| ==> low <= samples[i] <= high
    ensures low <= Average(samples) <= high
  {
    if |samples| > 1 {
      var n := |samples| - 1;
      AverageWithin(samples[..n], low, high);
    }
  }

  function Power(base: real, k: nat): real {
    if k == 0 then 1.0 else base * Power(base, k - 1)
  }

  function Repeated(average: real, sample: real, k: nat): real {
    if k == 0 then average else Smooth(Repeated(average, sample, k - 1), sample)
  }

  // Under constant latency the error shrinks to three quarters with every sample.
  lemma {:induction false} ErrorContracts(average: real, sample: real, k: nat)
    ensures Repeated(average, sample, k) - sample == Power(0.75, k) * (average - sample)
  {
    if k > 0 {
      ErrorContracts(average, sample, k - 1);
      var error := Repeated(average, sample, k - 1) - sample;
      assert Repeated(average, sample, k) - sample == 0.75 * error;
      assert 0.75 * (Power(0.75, k - 1) * (average - sample)) == (0.75 * Power(0.75, k - 1)) * (average - sample);
    }
  }

  class Controller {
    const low: nat
    const high: nat
    const target: real
    var current: nat
    var ewma: real
    var samples: nat
    ghost var observed: seq<real>

    // What configuration validation admits.
    static predicate Validated(low: nat, high: nat, initial: nat, target: real) {
      0 < low <= initial <= high <= U16_MAX && target > 0.0
    }

    ghost predicate Valid()
      reads this
    {
      && 0 < low <= current <= high <= U16_MAX && target > 0.0
      && samples == |observed| && ewma >= 0.0
      && (forall i :: 0 <= i < |observed| ==> observed[i] >= 0.0)
      && (observed != [] ==> ewma == Average(observed))
    }

    constructor (low: nat, high: nat, initial: nat, target: real)
      requires Validated(low, high, initial, target)
      ensures Valid() && this.low == low && this.high == high && current == initial && observed == []
    {
      this.low, this.high, this.target := low, high, target;
      current, ewma, samples, observed := initial, 0.0, 0, [];
    }

    method Observe(latency: real)
      requires Valid() && latency >= 0.0
      modifies this`ewma, this`samples, this`observed
      ensures Valid() && observed == old(observed) + [latency]
    {
      ewma := if samples == 0 then latency else ALPHA * latency + (1.0 - ALPHA) * ewma;
      samples := samples + 1;
      assert (observed + [latency])[..|observed|] == observed;
      observed := observed + [latency];
    }

    // Nothing before warm-up; then the window moves, and is reported, exactly if it was too far off.
    method Tick() returns (applied: Option<nat>)
      requires Valid()
      modifies this`current
      ensures Valid()
      ensures samples < MIN_SAMPLES ==> applied == None && current == old(current)
      ensures samples >= MIN_SAMPLES ==> current == Adjust(old(current), Desired(target, ewma, low, high))
      ensures applied == if current == old(current) then None else Some(current)
    {
      if samples < MIN_SAMPLES {
        return None;
      }
      var wanted := U16_MAX;
      if ewma > 0.0 {
        assert target / ewma > 0.0;
        var ceiling := Ceil(target / ewma);
        wanted := if ceiling > U16_MAX then U16_MAX else ceiling;
      }
      var desired := Clamp(wanted, low, high);
      var threshold := if current / HYSTERESIS_DIVISOR < 1 then 1 else current / HYSTERESIS_DIVISOR;
      var distance := if desired < current then current - desired else desired - current;
      if distance >= threshold {
        current := desired;
        return Some(desired);
      }
      return None;
    }

    // Two ticks without a sample in between: the second one does nothing.
    method TickTwice() returns (first: Option<nat>, second: Option<nat>)
      requires Valid()
      modifies this`current
      ensures Valid() && second == None
    {
      first := Tick();
      AdjustSettles(old(current), Desired(target, ewma, low, high));
      second := Tick();
    }
  }
}
