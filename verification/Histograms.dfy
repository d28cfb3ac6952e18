/** Latency histograms (shim-go/metrics.go:9-91): observations fall into fixed buckets, and a snapshot reports the
    running totals. Samples are real numbers. */
module Histograms {
  const BUCKETS: seq<nat> := [1, 5, 10, 25, 50, 100, 250, 500, 1000, 2500, 5000]

  /** One slot for each bucket and one for everything above. */
  const SLOTS: nat := 12

  datatype Hist = Hist(counts: seq<nat>, sum: real, count: nat)

  const EMPTY := Hist([0, 0, 0, 0, 0, 0, 0, 0, 0, 0, 0, 0], 0.0, 0)

  /** The first bucket that reaches ms, or the overflow slot. */
  function SlotFrom(ms: real, i: nat): (r: nat)
    requires i <= |BUCKETS|
    ensures i <= r <= |BUCKETS|
    ensures forall j :: i <= j < r ==> (BUCKETS[j] as real) < ms
    ensures r < |BUCKETS| ==> ms <= BUCKETS[r] as real
    decreases |BUCKETS| - i
  {
    if i == |BUCKETS| || ms <= BUCKETS[i] as real then i else SlotFrom(ms, i + 1)
  }

  function Slot(ms: real): (r: nat)
    ensures r <= |BUCKETS|
  {
    SlotFrom(ms, 0)
  }

  function Observed(h: Hist, ms: real): (r: Hist)
    requires |h.counts| == SLOTS
    ensures |r.counts| == SLOTS
  {
    Hist(h.counts[Slot(ms) := h.counts[Slot(ms)] + 1], h.sum + ms, h.count + 1)
  }

  function Running(counts: seq<nat>, n: nat): nat
    requires n <= |counts|
  {
    if n == 0 then 0 else Running(counts, n - 1) + counts[n - 1]
  }

  /** What Histograms reports for one source. */
  datatype Snapshot = Snapshot(cumulative: seq<nat>, sum: real, count: nat)

  function SnapshotOf(h: Hist): Snapshot
    requires |h.counts| == SLOTS
  {
    Snapshot(seq(|BUCKETS|, i requires 0 <= i < |BUCKETS| => Running(h.counts, i + 1)), h.sum, h.count)
  }

  // ---- what the counts mean ----

  /** The histogram of a sequence of observations. */
  function History(samples: seq<real>): (h: Hist)
    ensures |h.counts| == SLOTS
  {
    if samples == [] then EMPTY else Observed(History(samples[..|samples| - 1]), samples[|samples| - 1])
  }

  /** How many observations are at most le. */
  function AtMost(samples: seq<real>, le: nat): nat {
    if samples == [] then 0
    else AtMost(samples[..|samples| - 1], le) + if samples[|samples| - 1] <= le as real then 1 else 0
  }

  function Total(samples: seq<real>): real {
    if samples == [] then 0.0 else Total(samples[..|samples| - 1]) + samples[|samples| - 1]
  }

  lemma {:induction false} RunningBump(counts: seq<nat>, slot: nat, n: nat)
    requires slot < |counts| && n <= |counts|
    ensures Running(counts[slot := counts[slot] + 1], n) == Running(counts, n) + if slot < n then 1 else 0
  {
    if n > 0 {
      RunningBump(counts, slot, n - 1);
    }
  }

  lemma Ascending(i: nat, j: nat)
    requires i < j < |BUCKETS|
    ensures BUCKETS[i] < BUCKETS[j]
  {
  }

  /** A sample lands at or below bucket i exactly when it is at most that bucket's bound. */
  lemma SlotMeaning(ms: real, i: nat)
    requires i < |BUCKETS|
    ensures Slot(ms) <= i <==> ms <= BUCKETS[i] as real
  {
    var slot := Slot(ms);
    if slot < i {
      Ascending(slot, i);
    }
  }

  lemma {:induction false} RunningMeaning(samples: seq<real>, i: nat)
    requires i < |BUCKETS|
    ensures Running(History(samples).counts, i + 1) == AtMost(samples, BUCKETS[i])
  {
    hide Slot, Running;
    if samples == [] {
      RunningZero(i + 1);
    } else {
      var before, ms := samples[..|samples| - 1], samples[|samples| - 1];
      RunningMeaning(before, i);
      RunningBump(History(before).counts, Slot(ms), i + 1);
      SlotMeaning(ms, i);
    }
  }

  lemma {:induction false} RunningZero(n: nat)
    requires n <= SLOTS
    ensures Running(EMPTY.counts, n) == 0
  {
    if n > 0 {
      RunningZero(n - 1);
    }
  }

  /** No observation is lost or counted twice: every bucket reports exactly the observations at most its bound,
      and count is all of them. */
  lemma {:induction false} SnapshotMeaning(samples: seq<real>)
    ensures var shot := SnapshotOf(History(samples));
            && shot.count == |samples| && shot.sum == Total(samples)
            && forall i :: 0 <= i < |BUCKETS| ==> shot.cumulative[i] == AtMost(samples, BUCKETS[i])
    ensures Running(History(samples).counts, SLOTS) == |samples|
  {
    hide Slot;
    forall i | 0 <= i < |BUCKETS| ensures Running(History(samples).counts, i + 1) == AtMost(samples, BUCKETS[i]) {
      RunningMeaning(samples, i);
    }
    if samples == [] {
      RunningZero(SLOTS);
    } else {
      var before, ms := samples[..|samples| - 1], samples[|samples| - 1];
      SnapshotMeaning(before);
      RunningBump(History(before).counts, Slot(ms), SLOTS);
    }
  }

  // ---- the objects ----

  /** sort.SearchFloat64s on the bucket bounds. */
  method Search(ms: real) returns (i: nat)
    ensures i == Slot(ms)
  {
    i := 0;
    var j := |BUCKETS|;
    while i < j
      invariant i <= Slot(ms) <= j <= |BUCKETS|
    {
      var h := (i + j) / 2;
      SlotMeaning(ms, h);
      if !(ms <= BUCKETS[h] as real) {
        i := h + 1;
      } else {
        j := h;
      }
    }
  }

  class Histogram {
    const counts: array<nat>
    var sum: real
    var count: nat

    constructor ()
      ensures fresh(counts) && counts.Length == SLOTS && Value() == EMPTY
    {
      counts := new nat[SLOTS](_ => 0);
      sum, count := 0.0, 0;
    }

    ghost function Value(): (h: Hist)
      reads this, counts
      ensures |h.counts| == counts.Length
    {
      Hist(counts[..], sum, count)
    }

    /** One observation; Slot never passes the last slot, so the clamp is never needed. */
    method Add(ms: real)
      requires counts.Length == SLOTS
      modifies this, counts
      ensures Value() == Observed(old(Value()), ms)
    {
      sum := sum + ms;
      count := count + 1;
      var i: int := Search(ms);
      var slots := counts.Length;
      if i >= slots {
        i := slots - 1;
      }
      counts[i] := counts[i] + 1;
    }
  }

  class Metrics {
    var hist: map<string, Histogram>

    constructor ()
      ensures Valid() && Contents() == map[]
    {
      hist := map[];
    }

    ghost predicate Valid()
      reads this, Parts()
    {
      && (forall s :: s in hist ==> hist[s].counts.Length == SLOTS)
      && (forall s, t :: s in hist && t in hist && s != t ==>
            hist[s] != hist[t] && hist[s].counts != hist[t].counts)
    }

    ghost function Parts(): set<object>
      reads this
    {
      (set s | s in hist :: hist[s] as object) + (set s | s in hist :: hist[s].counts as object)
    }

    ghost function Contents(): map<string, Hist>
      reads this, Parts()
    {
      map s | s in hist :: hist[s].Value()
    }

    /** A new source starts with an empty histogram. */
    method Open(source: string)
      requires Valid()
      modifies this
      ensures Valid() && source in hist && fresh(Parts() - old(Parts()))
      ensures Contents() == if source in old(hist) then old(Contents()) else old(Contents())[source := EMPTY]
    {
      if source !in hist {
        var h := new Histogram();
        hist := hist[source := h];
      }
    }

    method Count(source: string, ms: real)
      requires Valid() && source in hist
      modifies hist[source], hist[source].counts
      ensures Valid() && Parts() == old(Parts())
      ensures Contents() == old(Contents())[source := Observed(old(Contents())[source], ms)]
    {
      hist[source].Add(ms);
    }

    method Observe(source: string, ms: real)
      requires Valid()
      modifies this, Parts()
      ensures Valid() && fresh(Parts() - old(Parts()))
      ensures Contents() ==
              var before := if source in old(Contents()) then old(Contents())[source] else EMPTY;
              old(Contents())[source := Observed(before, ms)]
    {
      Open(source);
      Count(source, ms);
    }

    method Histograms() returns (out: map<string, Snapshot>)
      requires Valid()
      ensures out == map s | s in Contents() :: SnapshotOf(Contents()[s])
    {
      out := map[];
      var left := hist.Keys;
      while left != {}
        invariant left <= hist.Keys && out.Keys == hist.Keys - left
        invariant forall s :: s in out ==> out[s] == SnapshotOf(hist[s].Value())
        decreases left
      {
        var s :| s in left;
        var h := hist[s];
        var cum, running := [], 0;
        for i := 0 to |BUCKETS|
          invariant |cum| == i && running == Running(h.Value().counts, i)
          invariant forall k :: 0 <= k < i ==> cum[k] == Running(h.Value().counts, k + 1)
        {
          running := running + h.counts[i];
          cum := cum + [running];
        }
        out := out[s := Snapshot(cum, h.sum, h.count)];
        left := left - {s};
      }
    }
  }
}
