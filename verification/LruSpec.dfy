// What the LRU accountant of shim-go/lru.go computes, on sequences of entries: oldest first, newest last.
module LruSpec {
  import opened Types

  datatype Entry<K> = Entry(key: K, size: nat)

  predicate Has<K(==)>(s: seq<Entry<K>>, k: K) {
    exists i :: 0 <= i < |s| && s[i].key == k
  }

  ghost predicate Distinct<K>(s: seq<Entry<K>>) {
    forall i, j :: 0 <= i < j < |s| ==> s[i].key != s[j].key
  }

  function KeysIn<K>(s: seq<Entry<K>>): set<K> { set e | e in s :: e.key }

  function Total<K>(s: seq<Entry<K>>): nat {
    if s == [] then 0 else s[0].size + Total(s[1..])
  }

  /** The entries other than k's, in their order. */
  function Without<K(==)>(s: seq<Entry<K>>, k: K): (r: seq<Entry<K>>)
    ensures |r| <= |s|
  {
    if s == [] then [] else if s[0].key == k then Without(s[1..], k) else [s[0]] + Without(s[1..], k)
  }

  function SizeOf<K(==)>(s: seq<Entry<K>>, k: K): nat {
    if s == [] then 0 else if s[0].key == k then s[0].size else SizeOf(s[1..], k)
  }

  /** k, of size z, becomes the most recent entry. */
  function Put<K(==)>(s: seq<Entry<K>>, k: K, z: nat): seq<Entry<K>> {
    Without(s, k) + [Entry(k, z)]
  }

  function Touch<K(==)>(s: seq<Entry<K>>, k: K): seq<Entry<K>> {
    if Has(s, k) then Put(s, k, SizeOf(s, k)) else s
  }

  // ---- removal and insertion ----

  lemma {:induction false} WithoutMember<K>(s: seq<Entry<K>>, k: K, e: Entry<K>)
    ensures e in Without(s, k) <==> e in s && e.key != k
  {
    if s != [] {
      WithoutMember(s[1..], k, e);
      assert s == [s[0]] + s[1..];
    }
  }

  lemma WithoutMembers<K>(s: seq<Entry<K>>, k: K)
    ensures forall e :: e in Without(s, k) <==> e in s && e.key != k
  {
    forall e: Entry<K> ensures e in Without(s, k) <==> e in s && e.key != k {
      WithoutMember(s, k, e);
    }
  }

  lemma WithoutLacks<K>(s: seq<Entry<K>>, k: K)
    ensures !Has(Without(s, k), k)
  {
    WithoutMembers(s, k);
    var r := Without(s, k);
    forall i | 0 <= i < |r| ensures r[i].key != k {
      assert r[i] in r;
    }
  }

  lemma {:induction false} WithoutDistinct<K>(s: seq<Entry<K>>, k: K)
    requires Distinct(s)
    ensures Distinct(Without(s, k))
  {
    if s != [] {
      WithoutDistinct(s[1..], k);
      var r := Without(s[1..], k);
      forall j | 0 <= j < |r| ensures r[j].key != s[0].key {
        var e: Entry<K> := r[j];
        WithoutMember(s[1..], k, e);
        var i :| 0 <= i < |s[1..]| && s[1..][i] == e;
        assert s[i + 1] == e;
      }
    }
  }

  lemma {:induction false} WithoutAbsent<K>(s: seq<Entry<K>>, k: K)
    requires !Has(s, k)
    ensures Without(s, k) == s
  {
    if s != [] {
      assert s[0].key != k;
      assert !Has(s[1..], k) by {
        forall i | 0 <= i < |s[1..]| ensures s[1..][i].key != k {
          assert s[1..][i] == s[i + 1];
        }
      }
      WithoutAbsent(s[1..], k);
    }
  }

  lemma {:induction false} TotalConcat<K>(a: seq<Entry<K>>, b: seq<Entry<K>>)
    ensures Total(a + b) == Total(a) + Total(b)
  {
    if a == [] {
      assert a + b == b;
    } else {
      assert (a + b)[1..] == a[1..] + b;
      TotalConcat(a[1..], b);
    }
  }

  /** Removing one entry of a duplicate-free list lowers the total by that entry's size. */
  lemma {:induction false} TotalWithout<K>(s: seq<Entry<K>>, k: K)
    requires Distinct(s)
    ensures Total(s) == Total(Without(s, k)) + (if Has(s, k) then SizeOf(s, k) else 0)
  {
    if s != [] {
      TotalWithout(s[1..], k);
      if s[0].key == k {
        assert !Has(s[1..], k) by {
          forall i | 0 <= i < |s[1..]| ensures s[1..][i].key != k {
            assert s[1..][i] == s[i + 1];
          }
        }
        WithoutAbsent(s[1..], k);
      } else if Has(s, k) {
        var i :| 0 <= i < |s| && s[i].key == k;
        assert s[1..][i - 1].key == k;
      } else {
        assert !Has(s[1..], k) by {
          forall i | 0 <= i < |s[1..]| ensures s[1..][i].key != k {
            assert s[1..][i] == s[i + 1];
          }
        }
      }
    }
  }

  lemma {:induction false} SizeOfMember<K>(s: seq<Entry<K>>, k: K)
    requires Has(s, k)
    ensures Entry(k, SizeOf(s, k)) in s
  {
    if s[0].key != k {
      var i :| 0 <= i < |s| && s[i].key == k;
      assert s[1..][i - 1].key == k;
      SizeOfMember(s[1..], k);
    }
  }

  lemma TotalPut<K>(s: seq<Entry<K>>, k: K, z: nat)
    requires Distinct(s)
    ensures Total(Put(s, k, z)) == Total(s) - (if Has(s, k) then SizeOf(s, k) else 0) + z
  {
    TotalWithout(s, k);
    TotalConcat(Without(s, k), [Entry(k, z)]);
    assert Total([Entry(k, z)]) == z + Total<K>([]);
  }

  lemma PutKeeps<K>(s: seq<Entry<K>>, k: K, z: nat)
    requires Distinct(s)
    ensures Distinct(Put(s, k, z))
    ensures forall e :: e in Put(s, k, z) <==> e == Entry(k, z) || (e in s && e.key != k)
    ensures Total(Put(s, k, z)) == Total(s) - (if Has(s, k) then SizeOf(s, k) else 0) + z
  {
    WithoutDistinct(s, k);
    WithoutMembers(s, k);
    WithoutLacks(s, k);
    TotalPut(s, k, z);
  }

  /** A touch reorders: same entries, same total. */
  lemma TouchKeeps<K>(s: seq<Entry<K>>, k: K)
    requires Distinct(s)
    ensures Distinct(Touch(s, k))
    ensures forall e :: e in Touch(s, k) <==> e in s
    ensures Total(Touch(s, k)) == Total(s)
  {
    if Has(s, k) {
      PutKeeps(s, k, SizeOf(s, k));
      SizeOfMember(s, k);
      forall e | e in s && e.key == k ensures e == Entry(k, SizeOf(s, k)) {
        var i :| 0 <= i < |s| && s[i] == e;
        var j :| 0 <= j < |s| && s[j] == Entry(k, SizeOf(s, k));
      }
    }
  }

  lemma PopKeeps<K>(s: seq<Entry<K>>)
    requires s != [] && Distinct(s)
    ensures Distinct(s[1..])
    ensures forall e :: e in s <==> e == s[0] || e in s[1..]
    ensures Total(s) == s[0].size + Total(s[1..])
  {
    assert s == [s[0]] + s[1..];
  }

  // ---- limits and eviction ----

  /** max: byte budget, <= 0 disables it. minFree: disk-free floor, <= 0 disables it. */
  datatype Limits = Limits(max: int, minFree: int)

  /** The readings of freeFn, by call; without an entry (freeFn nil, or no reading taken) nothing is known. */
  type Gauge = map<nat, int>

  function Reading(gauge: Gauge, i: nat): Option<int> {
    if i in gauge then Some(gauge[i]) else None
  }

  /** overLimitLocked, the free-space reading being `free` if it is consulted. */
  predicate OverLimit(lim: Limits, total: int, free: Option<int>) {
    (lim.max > 0 && total > lim.max) || (lim.minFree > 0 && free.Some? && free.value < lim.minFree)
  }

  /** The free-space gauge is consulted only when the byte budget is met and a floor is set. */
  predicate Consults(lim: Limits, total: int) {
    !(lim.max > 0 && total > lim.max) && lim.minFree > 0
  }

  /** How many of the oldest entries evictLocked drops; `reading` is the number of readings taken so far. */
  function EvictCount<K>(s: seq<Entry<K>>, lim: Limits, gauge: Gauge, reading: nat): (n: nat)
    ensures n <= |s|
  {
    if s == [] || !OverLimit(lim, Total(s), Reading(gauge, reading)) then 0
    else 1 + EvictCount(s[1..], lim, gauge, if Consults(lim, Total(s)) then reading + 1 else reading)
  }

  /** The number of readings after evictLocked. */
  function ReadingsAfter<K>(s: seq<Entry<K>>, lim: Limits, gauge: Gauge, reading: nat): nat {
    if s == [] then reading
    else
      var next := if Consults(lim, Total(s)) then reading + 1 else reading;
      if OverLimit(lim, Total(s), Reading(gauge, reading)) then ReadingsAfter(s[1..], lim, gauge, next) else next
  }

  function Kept<K>(s: seq<Entry<K>>, lim: Limits, gauge: Gauge, reading: nat): seq<Entry<K>> {
    s[EvictCount(s, lim, gauge, reading)..]
  }

  function Dropped<K>(s: seq<Entry<K>>, lim: Limits, gauge: Gauge, reading: nat): seq<Entry<K>> {
    s[..EvictCount(s, lim, gauge, reading)]
  }

  /** The longest run of most recent entries whose sizes fit in cap. */
  function FitRun<K>(s: seq<Entry<K>>, cap: int): seq<Entry<K>> {
    if s == [] || Total(s) <= cap then s else FitRun(s[1..], cap)
  }

  lemma {:induction false} TotalOfSuffix<K>(s: seq<Entry<K>>, i: nat)
    requires i <= |s|
    ensures Total(s[i..]) <= Total(s)
  {
    if i > 0 {
      assert s[1..][i - 1..] == s[i..];
      TotalOfSuffix(s[1..], i - 1);
    }
  }

  /** FitRun is a suffix, it fits (unless nothing does), and every longer suffix does not. */
  lemma {:induction false} FitRunIsLongest<K>(s: seq<Entry<K>>, cap: int)
    ensures exists i :: 0 <= i <= |s| && FitRun(s, cap) == s[i..] && forall j :: 0 <= j < i ==> Total(s[j..]) > cap
    ensures Total(FitRun(s, cap)) <= cap || FitRun(s, cap) == []
  {
    if s == [] || Total(s) <= cap {
      assert FitRun(s, cap) == s[0..];
    } else {
      FitRunIsLongest(s[1..], cap);
      var i :| 0 <= i <= |s[1..]| && FitRun(s[1..], cap) == s[1..][i..]
               && forall j :: 0 <= j < i ==> Total(s[1..][j..]) > cap;
      assert s[1..][i..] == s[i + 1..];
      forall j | 0 <= j < i + 1 ensures Total(s[j..]) > cap {
        if j == 0 {
          assert s[0..] == s;
        } else {
          assert s[j..] == s[1..][j - 1..];
        }
      }
    }
  }

  /** With only the byte budget set, eviction keeps exactly the longest most-recent run that fits. */
  lemma {:induction false} KeptIsFitRun<K>(s: seq<Entry<K>>, lim: Limits, gauge: Gauge, reading: nat)
    requires lim.max > 0 && lim.minFree <= 0
    ensures Kept(s, lim, gauge, reading) == FitRun(s, lim.max)
    ensures ReadingsAfter(s, lim, gauge, reading) == reading
  {
    if s != [] && Total(s) > lim.max {
      KeptIsFitRun(s[1..], lim, gauge, reading);
      assert Kept(s, lim, gauge, reading) == Kept(s[1..], lim, gauge, reading);
    }
  }

  /** What eviction leaves is within the byte budget, whatever the gauge says. */
  lemma {:induction false} KeptWithinBudget<K>(s: seq<Entry<K>>, lim: Limits, gauge: Gauge, reading: nat)
    requires lim.max > 0
    ensures Total(Kept(s, lim, gauge, reading)) <= lim.max
  {
    if s != [] && OverLimit(lim, Total(s), Reading(gauge, reading)) {
      var next := if Consults(lim, Total(s)) then reading + 1 else reading;
      KeptWithinBudget(s[1..], lim, gauge, next);
      assert Kept(s, lim, gauge, reading) == Kept(s[1..], lim, gauge, next);
    }
  }

  /** A gauge that never recovers empties the cache, and then eviction stops. */
  lemma {:induction false} StuckGaugeEvictsAll<K>(s: seq<Entry<K>>, lim: Limits, gauge: Gauge, reading: nat)
    requires lim.minFree > 0
    requires forall i :: reading <= i < reading + |s| ==>
               Reading(gauge, i).Some? && Reading(gauge, i).value < lim.minFree
    ensures Kept(s, lim, gauge, reading) == []
  {
    if s != [] {
      var next := if Consults(lim, Total(s)) then reading + 1 else reading;
      StuckGaugeEvictsAll(s[1..], lim, gauge, next);
      assert OverLimit(lim, Total(s), Reading(gauge, reading));
      assert Kept(s, lim, gauge, reading) == Kept(s[1..], lim, gauge, next);
    }
  }

  // ---- loading ----

  /** Load's insertions: seeds already in order of age, the first of each key wins. */
  function Loaded<K(==)>(s: seq<Entry<K>>, seeds: seq<Entry<K>>): seq<Entry<K>>
    decreases |seeds|
  {
    if seeds == [] then s
    else Loaded(if Has(s, seeds[0].key) then s else s + [seeds[0]], seeds[1..])
  }

  lemma {:induction false} LoadedKeeps<K>(s: seq<Entry<K>>, seeds: seq<Entry<K>>)
    requires Distinct(s)
    ensures Distinct(Loaded(s, seeds))
    ensures forall e :: e in s ==> e in Loaded(s, seeds)
    decreases |seeds|
  {
    if seeds != [] {
      var s1 := if Has(s, seeds[0].key) then s else s + [seeds[0]];
      LoadedKeeps(s1, seeds[1..]);
    }
  }

  /** Seeds with distinct keys, loaded into an empty cache, are all there, in their order. */
  lemma {:induction false} LoadedAll<K>(s: seq<Entry<K>>, seeds: seq<Entry<K>>)
    requires Distinct(s + seeds)
    ensures Loaded(s, seeds) == s + seeds
    decreases |seeds|
  {
    if seeds == [] {
      assert s + seeds == s;
    } else {
      assert !Has(s, seeds[0].key) by {
        assert (s + seeds)[|s|] == seeds[0];
        forall i | 0 <= i < |s| ensures s[i].key != seeds[0].key {
          assert (s + seeds)[i] == s[i];
        }
      }
      assert s + [seeds[0]] + seeds[1..] == s + seeds;
      LoadedAll(s + [seeds[0]], seeds[1..]);
    }
  }
}
