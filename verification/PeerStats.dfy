/** Per-peer throughput estimates and the hedge delay they predict (shim-go/peers.go:78-130), over the reals. */
module PeerStats {
  import opened Types

  const ALPHA := 0.3
  const KEPT := 0.7

  /** Bytes per millisecond of one transfer; a sub-millisecond transfer counts as one millisecond. */
  function Sample(bytes: nat, elapsedMs: int): real {
    bytes as real / (if elapsedMs <= 0 then 1.0 else elapsedMs as real)
  }

  function Blend(estimate: Option<real>, sample: real): real {
    if estimate.Some? then ALPHA * sample + (1.0 - ALPHA) * estimate.value else sample
  }

  function Lookup(ewma: map<string, real>, base: string): Option<real> {
    if base in ewma then Some(ewma[base]) else None
  }

  /** Go's conversion of a float to an integer: toward zero. */
  function Truncate(x: real): int {
    if x >= 0.0 then x.Floor else -((-x).Floor)
  }

  function Clamp(ms: real, minMs: int, maxMs: int): real {
    var atLeast := if ms < minMs as real then minMs as real else ms;
    if atLeast > maxMs as real then maxMs as real else atLeast
  }

  /** The milliseconds the peer is expected to need, scaled. */
  function Predicted(size: int, estimate: real, factor: real): real
    requires estimate > 0.0
  {
    size as real / estimate * factor
  }

  /** The head start, in whole milliseconds, of a peer with the given estimate. */
  function DelayMs(estimate: Option<real>, size: int, factor: real, minMs: int, maxMs: int): int {
    if estimate.None? || estimate.value <= 0.0 then maxMs
    else Truncate(Clamp(Predicted(size, estimate.value, factor), minMs, maxMs))
  }

  class PeerStats {
    var ewma: map<string, real>

    constructor ()
      ensures ewma == map[]
    {
      ewma := map[];
    }

    method HedgeDelay(base: string, size: int, factor: real, minMs: int, maxMs: int) returns (delay: int)
      ensures delay <= maxMs && (minMs <= maxMs ==> minMs <= delay)
      ensures base !in ewma || ewma[base] <= 0.0 ==> delay == maxMs
      ensures base in ewma && 0.0 < ewma[base] && 0 <= minMs
              && minMs as real <= Predicted(size, ewma[base], factor) <= maxMs as real ==>
                delay as real <= Predicted(size, ewma[base], factor) < delay as real + 1.0
      ensures delay == DelayMs(Lookup(ewma, base), size, factor, minMs, maxMs)
    {
      DelayBounds(Lookup(ewma, base), size, factor, minMs, maxMs);
      if base !in ewma || ewma[base] <= 0.0 {
        return maxMs;
      }
      var ms := Predicted(size, ewma[base], factor);
      if ms < minMs as real {
        ms := minMs as real;
      }
      if ms > maxMs as real {
        ms := maxMs as real;
      }
      delay := Truncate(ms);
    }

    method Update(base: string, bytes: nat, elapsedMs: int)
      modifies this
      ensures ewma == old(ewma)[base := Blend(Lookup(old(ewma), base), Sample(bytes, elapsedMs))]
    {
      var ms := elapsedMs as real;
      if ms <= 0.0 {
        ms := 1.0;
      }
      var sample := bytes as real / ms;
      if base in ewma {
        ewma := ewma[base := ALPHA * sample + (1.0 - ALPHA) * ewma[base]];
      } else {
        ewma := ewma[base := sample];
      }
    }
  }

  // ---- the estimate over any history of one peer ----

  /** The estimate after the samples, oldest first. */
  function Estimate(samples: seq<real>): Option<real> {
    if samples == [] then None
    else Some(Blend(Estimate(samples[..|samples| - 1]), samples[|samples| - 1]))
  }

  /** The estimate never leaves the span of the samples it was made from. */
  lemma {:induction false} EstimateWithinSamples(samples: seq<real>, lo: real, hi: real)
    requires samples != [] && forall x :: x in samples ==> lo <= x <= hi
    ensures lo <= Estimate(samples).value <= hi
  {
    var before, last := samples[..|samples| - 1], samples[|samples| - 1];
    assert last in samples;
    if before != [] {
      assert forall x :: x in before ==> x in samples;
      EstimateWithinSamples(before, lo, hi);
    }
  }

  function Power(x: real, k: nat): real { if k == 0 then 1.0 else x * Power(x, k - 1) }

  function Repeat(v: real, k: nat): seq<real> { if k == 0 then [] else Repeat(v, k - 1) + [v] }

  lemma EstimateAppend(samples: seq<real>, v: real)
    ensures Estimate(samples + [v]) == Some(Blend(Estimate(samples), v))
  {
    assert (samples + [v])[..|samples|] == samples;
  }

  /** A distance shrunk k times. */
  function Shrunk(distance: real, k: nat): real { if k == 0 then distance else KEPT * Shrunk(distance, k - 1) }

  lemma {:induction false} ShrunkByPower(distance: real, k: nat)
    ensures Shrunk(distance, k) == Power(KEPT, k) * distance
  {
    if k > 0 {
      ShrunkByPower(distance, k - 1);
      assert KEPT * (Power(KEPT, k - 1) * distance) == (KEPT * Power(KEPT, k - 1)) * distance;
    }
  }

  lemma {:induction false} EqualSamplesShrink(samples: seq<real>, v: real, k: nat)
    requires samples != []
    ensures Estimate(samples + Repeat(v, k)).Some?
    ensures Estimate(samples + Repeat(v, k)).value - v == Shrunk(Estimate(samples).value - v, k)
  {
    if k == 0 {
      assert samples + Repeat(v, 0) == samples;
    } else {
      var before := samples + Repeat(v, k - 1);
      assert samples + Repeat(v, k) == before + [v];
      hide Estimate;
      EqualSamplesShrink(samples, v, k - 1);
      EstimateAppend(before, v);
    }
  }

  /** k further samples of one value v bring the estimate to exactly 0.7^k of its former distance from v. */
  lemma EqualSamplesConverge(samples: seq<real>, v: real, k: nat)
    requires samples != []
    ensures Estimate(samples + Repeat(v, k)).value - v == Power(KEPT, k) * (Estimate(samples).value - v)
  {
    hide Shrunk, Power;
    EqualSamplesShrink(samples, v, k);
    ShrunkByPower(Estimate(samples).value - v, k);
  }

  /** One Update call. */
  datatype Transfer = Transfer(base: string, bytes: nat, elapsedMs: int)

  /** The map after the transfers, oldest first: Update applied to each in turn. */
  function AfterTransfers(ts: seq<Transfer>): map<string, real> {
    if ts == [] then map[]
    else
      var ewma, t := AfterTransfers(ts[..|ts| - 1]), ts[|ts| - 1];
      ewma[t.base := Blend(Lookup(ewma, t.base), Sample(t.bytes, t.elapsedMs))]
  }

  function SamplesOf(ts: seq<Transfer>, base: string): seq<real> {
    if ts == [] then []
    else
      var t := ts[|ts| - 1];
      SamplesOf(ts[..|ts| - 1], base) + (if t.base == base then [Sample(t.bytes, t.elapsedMs)] else [])
  }

  /** A peer's entry depends on its own transfers only, in their order. */
  lemma {:induction false} EntryIsEstimate(ts: seq<Transfer>, base: string)
    ensures Lookup(AfterTransfers(ts), base) == Estimate(SamplesOf(ts, base))
  {
    if ts != [] {
      var before, t := ts[..|ts| - 1], ts[|ts| - 1];
      EntryIsEstimate(before, base);
      if t.base == base {
        EstimateAppend(SamplesOf(before, base), Sample(t.bytes, t.elapsedMs));
      } else {
        assert SamplesOf(ts, base) == SamplesOf(before, base);
      }
    }
  }

  // ---- the delay ----

  lemma TruncateMonotone(x: real, y: real)
    requires x <= y
    ensures Truncate(x) <= Truncate(y)
  {
  }

  /** Never above the cap, whatever the estimate, the size or the settings; never below the floor when the
      floor is not above the cap. */
  lemma DelayBounds(estimate: Option<real>, size: int, factor: real, minMs: int, maxMs: int)
    ensures DelayMs(estimate, size, factor, minMs, maxMs) <= maxMs
    ensures minMs <= maxMs ==> minMs <= DelayMs(estimate, size, factor, minMs, maxMs)
  {
    if estimate.Some? && estimate.value > 0.0 {
      var ms := Clamp(Predicted(size, estimate.value, factor), minMs, maxMs);
      TruncateMonotone(ms, maxMs as real);
      if minMs <= maxMs {
        TruncateMonotone(minMs as real, ms);
      }
    }
  }

  lemma ProductOrder(x: real, y: real, z: real)
    requires x <= y && 0.0 <= z
    ensures x * z <= y * z
  {
  }

  lemma CancelFactor(x: real, y: real, z: real)
    requires x * z <= y * z && 0.0 < z
    ensures x <= y
  {
  }

  lemma QuotientOrder(a: real, b: real, c: real, d: real)
    requires 0.0 <= a <= b && 0.0 < d <= c
    ensures a / c <= b / d
  {
    var x, y := a / c, b / d;
    assert x * c == a && y * d == b;
    assert 0.0 <= y by {
      CancelFactor(0.0, y, d);
    }
    ProductOrder(d, c, y);
    CancelFactor(x, y, c);
  }

  /** A prediction between the bounds is the delay, to the millisecond. */
  lemma DelayIsPrediction(estimate: real, size: int, factor: real, minMs: nat, maxMs: int)
    requires 0.0 < estimate && minMs as real <= Predicted(size, estimate, factor) <= maxMs as real
    ensures var delay := DelayMs(Some(estimate), size, factor, minMs, maxMs);
            delay as real <= Predicted(size, estimate, factor) < delay as real + 1.0
  {
    assert Clamp(Predicted(size, estimate, factor), minMs, maxMs) == Predicted(size, estimate, factor);
  }

  /** A larger range is given at least the delay of a smaller one, and a faster peer at most that of a slower. */
  lemma DelayMonotone(fast: real, slow: real, small: nat, large: nat, factor: real, minMs: int, maxMs: int)
    requires 0.0 <= slow <= fast && small <= large && 0.0 <= factor
    ensures DelayMs(Some(fast), small, factor, minMs, maxMs) <= DelayMs(Some(slow), large, factor, minMs, maxMs)
  {
    if slow == 0.0 {
      DelayBounds(Some(fast), small, factor, minMs, maxMs);
      return;
    }
    QuotientOrder(small as real, large as real, fast, slow);
    var x, y := Predicted(small, fast, factor), Predicted(large, slow, factor);
    ProductOrder(small as real / fast, large as real / slow, factor);
    assert Clamp(x, minMs, maxMs) <= Clamp(y, minMs, maxMs);
    TruncateMonotone(Clamp(x, minMs, maxMs), Clamp(y, minMs, maxMs));
  }
}
