/** Two LRU caches compared on every request trace: the service's (touch, or insert then evict; shim-go/lru.go:64-105)
    and the simulator's (get, then evict and insert; study/placement_locality_sim.py:69-95, 127-135), and each
    against itself at a smaller capacity. Every key has one size. */
module LruCompare {
  import opened Types
  import opened LruSpec
  import opened Simulator

  datatype Request<K> = Request(key: K, now: real)

  // ---- the service, one request at a time, with only the byte budget set ----

  function ServeStep<K(==)>(s: seq<Entry<K>>, key: K, size: nat, capacity: int): seq<Entry<K>> {
    if Has(s, key) then LruSpec.Touch(s, key) else FitRun(LruSpec.Put(s, key, size), capacity)
  }

  /** The step is the accountant's own: Touch on a hit, Record on a miss. */
  lemma ServeStepIsRecord<K>(s: seq<Entry<K>>, key: K, size: nat, capacity: int, gauge: Gauge, reading: nat)
    requires 0 < capacity && !Has(s, key)
    ensures ServeStep(s, key, size, capacity) == Kept(LruSpec.Put(s, key, size), Limits(capacity, 0), gauge, reading)
  {
    KeptIsFitRun(LruSpec.Put(s, key, size), Limits(capacity, 0), gauge, reading);
  }

  function Served<K(==)>(trace: seq<Request<K>>, size: K -> nat, capacity: int): seq<Entry<K>> {
    if trace == [] then []
    else
      var last := trace[|trace| - 1];
      ServeStep(Served(trace[..|trace| - 1], size, capacity), last.key, size(last.key), capacity)
  }

  /** Whether the i-th request hits. */
  predicate ServedHit<K(==)>(trace: seq<Request<K>>, size: K -> nat, capacity: int, i: nat)
    requires i < |trace|
  {
    Has(Served(trace[..i], size, capacity), trace[i].key)
  }

  // ---- the simulator, get then put ----

  function SimStep<K(==)>(s: Sim<K>, r: Request<K>, size: nat, capacity: int, ttl: Option<real>): Option<Sim<K>> {
    AfterPut(AfterGet(s, r.key, ttl, r.now), r.key, size, capacity, r.now)
  }

  function Simulated<K(==)>(trace: seq<Request<K>>, size: K -> nat, capacity: int, ttl: Option<real>): Option<Sim<K>> {
    if trace == [] then Some(Sim([], map[], 0))
    else
      var last := trace[|trace| - 1];
      match Simulated(trace[..|trace| - 1], size, capacity, ttl)
      case None => None
      case Some(s) => SimStep(s, last, size(last.key), capacity, ttl)
  }

  /** Whether the i-th request hits; absent when the simulator raised before it. */
  function SimulatedHit<K(==)>(trace: seq<Request<K>>, size: K -> nat, capacity: int, ttl: Option<real>,
                               i: nat): Option<bool>
    requires i < |trace|
  {
    match Simulated(trace[..i], size, capacity, ttl)
    case None => None
    case Some(s) => Some(GetHit(s, trace[i].key, ttl, trace[i].now))
  }

  // ---- what both keep ----

  ghost predicate Sized<K(!new)>(s: seq<Entry<K>>, size: K -> nat) {
    Distinct(s) && forall e :: e in s ==> e.size == size(e.key)
  }

  lemma SizedSizeOf<K(!new)>(s: seq<Entry<K>>, size: K -> nat, key: K)
    requires Sized(s, size) && Has(s, key)
    ensures SizeOf(s, key) == size(key)
  {
    SizeOfMember(s, key);
  }

  lemma {:induction false} FitRunSuffix<K>(s: seq<Entry<K>>, cap: int) returns (i: nat)
    ensures i <= |s| && FitRun(s, cap) == s[i..]
  {
    if s == [] || Total(s) <= cap {
      i := 0;
    } else {
      var j := FitRunSuffix(s[1..], cap);
      i := j + 1;
      assert s[1..][j..] == s[i..];
    }
  }

  lemma SizedSuffix<K(!new)>(s: seq<Entry<K>>, i: nat, size: K -> nat)
    requires Sized(s, size) && i <= |s|
    ensures Sized(s[i..], size)
  {
    assert s == s[..i] + s[i..];
  }

  lemma SizedPut<K(!new)>(s: seq<Entry<K>>, size: K -> nat, key: K)
    requires Sized(s, size)
    ensures Sized(LruSpec.Put(s, key, size(key)), size)
  {
    PutKeeps(s, key, size(key));
  }

  lemma ServeStepSized<K(!new)>(s: seq<Entry<K>>, key: K, size: K -> nat, capacity: int)
    requires Sized(s, size)
    ensures Sized(ServeStep(s, key, size(key), capacity), size)
  {
    SizedPut(s, size, key);
    if Has(s, key) {
      SizedSizeOf(s, size, key);
    } else {
      var t := LruSpec.Put(s, key, size(key));
      var i := FitRunSuffix(t, capacity);
      SizedSuffix(t, i, size);
    }
  }

  lemma {:induction false} ServedSized<K(!new)>(trace: seq<Request<K>>, size: K -> nat, capacity: int)
    ensures Sized(Served(trace, size, capacity), size)
  {
    if trace != [] {
      ServedSized(trace[..|trace| - 1], size, capacity);
      ServeStepSized(Served(trace[..|trace| - 1], size, capacity), trace[|trace| - 1].key, size, capacity);
    }
  }

  // ---- one step of the simulator ----

  /** The simulator's list after one request, when its byte count is exact. */
  function SimEntries<K(==)>(s: Sim<K>, r: Request<K>, size: nat, capacity: int, ttl: Option<real>): seq<Entry<K>> {
    if GetHit(s, r.key, ttl, r.now) then LruSpec.Put(s.entries, r.key, size)
    else if size > capacity then Without(s.entries, r.key)
    else FitRun(Without(s.entries, r.key), capacity - size) + [Entry(r.key, size)]
  }

  ghost predicate SimOk<K(!new)>(s: Sim<K>, size: K -> nat, capacity: int) {
    Sized(s.entries, size) && Exact(s) && s.used <= capacity
  }

  lemma WithoutTwice<K>(s: seq<Entry<K>>, key: K, z: nat)
    ensures Without(Without(s, key) + [Entry(key, z)], key) == Without(s, key)
  {
    WithoutLacks(s, key);
    WithoutAbsent(Without(s, key), key);
    WithoutLast(Without(s, key), key, z);
  }

  lemma {:induction false} WithoutLast<K>(s: seq<Entry<K>>, key: K, z: nat)
    ensures Without(s + [Entry(key, z)], key) == Without(s, key)
  {
    if s != [] {
      assert (s + [Entry(key, z)])[1..] == s[1..] + [Entry(key, z)];
      WithoutLast(s[1..], key, z);
    }
  }

  /** get leaves: nothing changed, the key popped, or the key moved to the end. */
  lemma GetEffect<K(!new)>(s: Sim<K>, r: Request<K>, size: K -> nat, capacity: int, ttl: Option<real>)
    requires SimOk(s, size, capacity)
    ensures var g := AfterGet(s, r.key, ttl, r.now);
            && SimOk(g, size, capacity)
            && Without(g.entries, r.key) == Without(s.entries, r.key)
            && (Has(g.entries, r.key) <==> GetHit(s, r.key, ttl, r.now))
  {
    GetKeepsExact(s, r.key, ttl, r.now);
    WithoutLacks(s.entries, r.key);
    if !Has(s.entries, r.key) {
      WithoutAbsent(s.entries, r.key);
    } else if Stale(s, r.key, ttl, r.now) {
      WithoutDistinct(s.entries, r.key);
      WithoutMembers(s.entries, r.key);
      WithoutAbsent(Without(s.entries, r.key), r.key);
    } else {
      TouchKeeps(s.entries, r.key);
      TouchHas(s.entries, r.key);
      WithoutTwice(s.entries, r.key, SizeOf(s.entries, r.key));
    }
  }

  lemma PutEffect<K(!new)>(g: Sim<K>, r: Request<K>, size: K -> nat, capacity: int)
    requires SimOk(g, size, capacity)
    ensures var p := AfterPut(g, r.key, size(r.key), capacity, r.now);
            && p.Some? && SimOk(p.value, size, capacity)
            && p.value.entries ==
               (if Has(g.entries, r.key) then LruSpec.Put(g.entries, r.key, size(r.key))
                else if size(r.key) > capacity then g.entries
                else FitRun(g.entries, capacity - size(r.key)) + [Entry(r.key, size(r.key))])
  {
    var z := size(r.key);
    PutKeepsExact(g, r.key, z, capacity, r.now);
    if Has(g.entries, r.key) {
      SizedSizeOf(g.entries, size, r.key);
      SizedPut(g.entries, size, r.key);
      TotalPut(g.entries, r.key, z);
    } else if z <= capacity {
      RoomIsFitRun(g, z, capacity);
      var i := FitRunSuffix(g.entries, capacity - z);
      SizedSuffix(g.entries, i, size);
      assert forall e :: e in g.entries[i..] ==> e in g.entries;
      assert forall j :: 0 <= j < |g.entries[i..]| ==> g.entries[i..][j].key != r.key;
      assert Sized(g.entries[i..] + [Entry(r.key, z)], size);
    }
  }

  /** With per-key sizes the simulator never raises, its count stays exact and within capacity, and a request
      changes its list as SimEntries says. */
  lemma SimStepEffect<K(!new)>(s: Sim<K>, r: Request<K>, size: K -> nat, capacity: int, ttl: Option<real>)
    requires SimOk(s, size, capacity)
    ensures var t := SimStep(s, r, size(r.key), capacity, ttl);
            t.Some? && SimOk(t.value, size, capacity)
            && t.value.entries == SimEntries(s, r, size(r.key), capacity, ttl)
  {
    GetEffect(s, r, size, capacity, ttl);
    var g := AfterGet(s, r.key, ttl, r.now);
    PutEffect(g, r, size, capacity);
    if !Has(g.entries, r.key) {
      WithoutAbsent(g.entries, r.key);
    }
  }

  /** Over every trace, time to live and capacity: no exception, exact bytes, never over capacity. */
  lemma {:induction false} SimulatorIsSound<K(!new)>(trace: seq<Request<K>>, size: K -> nat, capacity: nat,
                                                     ttl: Option<real>)
    ensures Simulated(trace, size, capacity, ttl).Some?
    ensures SimOk(Simulated(trace, size, capacity, ttl).value, size, capacity)
  {
    if trace != [] {
      SimulatorIsSound(trace[..|trace| - 1], size, capacity, ttl);
      SimStepEffect(Simulated(trace[..|trace| - 1], size, capacity, ttl).value, trace[|trace| - 1], size, capacity,
                    ttl);
    }
  }

  // ---- the simulator equals the service ----

  /** Evicting before the insertion and evicting after it keep the same run. */
  lemma {:induction false} EvictFirstOrLast<K>(s: seq<Entry<K>>, e: Entry<K>, capacity: int)
    requires e.size <= capacity
    ensures FitRun(s + [e], capacity) == FitRun(s, capacity - e.size) + [e]
  {
    TotalConcat(s, [e]);
    assert Total([e]) == e.size + Total<K>([]);
    if s == [] {
      assert s + [e] == [e];
    } else if Total(s) + e.size > capacity {
      assert (s + [e])[1..] == s[1..] + [e];
      EvictFirstOrLast(s[1..], e, capacity);
    }
  }

  lemma StepsAgree<K(!new)>(s: Sim<K>, r: Request<K>, size: K -> nat, capacity: int)
    requires SimOk(s, size, capacity) && size(r.key) <= capacity
    ensures SimEntries(s, r, size(r.key), capacity, None) == ServeStep(s.entries, r.key, size(r.key), capacity)
    ensures GetHit(s, r.key, None, r.now) == Has(s.entries, r.key)
  {
    if Has(s.entries, r.key) {
      SizedSizeOf(s.entries, size, r.key);
    } else {
      EvictFirstOrLast(Without(s.entries, r.key), Entry(r.key, size(r.key)), capacity);
    }
  }

  lemma {:induction false} SameContents<K(!new)>(trace: seq<Request<K>>, size: K -> nat, capacity: nat)
    requires forall r :: r in trace ==> size(r.key) <= capacity
    ensures Simulated(trace, size, capacity, None).Some?
    ensures Simulated(trace, size, capacity, None).value.entries == Served(trace, size, capacity)
  {
    SimulatorIsSound(trace, size, capacity, None);
    if trace != [] {
      var before, last := trace[..|trace| - 1], trace[|trace| - 1];
      assert last in trace && forall r :: r in before ==> r in trace;
      SameContents(before, size, capacity);
      SimulatorIsSound(before, size, capacity, None);
      var s := Simulated(before, size, capacity, None).value;
      SimStepEffect(s, last, size, capacity, None);
      StepsAgree(s, last, size, capacity);
    }
  }

  /** The simulator predicts the service: on every trace without an object larger than the capacity, without a time
      to live, request by request the same hits, and at the end the same contents in the same order. */
  lemma SimulatorEqualsService<K(!new)>(trace: seq<Request<K>>, size: K -> nat, capacity: nat)
    requires forall r :: r in trace ==> size(r.key) <= capacity
    ensures forall i :: 0 <= i < |trace| ==>
              SimulatedHit(trace, size, capacity, None, i) == Some(ServedHit(trace, size, capacity, i))
    ensures Simulated(trace, size, capacity, None).Some?
    ensures Simulated(trace, size, capacity, None).value.entries == Served(trace, size, capacity)
  {
    SameContents(trace, size, capacity);
    forall i | 0 <= i < |trace|
      ensures SimulatedHit(trace, size, capacity, None, i) == Some(ServedHit(trace, size, capacity, i))
    {
      assert forall r :: r in trace[..i] ==> r in trace;
      SameContents(trace[..i], size, capacity);
    }
  }

  /** An object too large for the cache: the simulator bypasses, the service evicts everything. From equal
      contents they go on agreeing after a miss exactly when the object fits or there was nothing to lose. */
  lemma OversizeDiverges<K(!new)>(s: Sim<K>, r: Request<K>, size: K -> nat, capacity: nat)
    requires SimOk(s, size, capacity) && !Has(s.entries, r.key)
    ensures SimEntries(s, r, size(r.key), capacity, None) == ServeStep(s.entries, r.key, size(r.key), capacity)
            <==> size(r.key) <= capacity || s.entries == []
  {
    WithoutAbsent(s.entries, r.key);
    if size(r.key) <= capacity {
      StepsAgree(s, r, size, capacity);
    } else {
      OversizeEmpties(s.entries, Entry(r.key, size(r.key)), capacity);
    }
  }

  lemma {:induction false} OversizeEmpties<K>(s: seq<Entry<K>>, e: Entry<K>, capacity: int)
    requires e.size > capacity
    ensures FitRun(s + [e], capacity) == []
  {
    TotalConcat(s, [e]);
    assert Total([e]) == e.size + Total<K>([]);
    if s == [] {
      assert s + [e] == [e];
      assert [e][1..] == [];
    } else {
      assert (s + [e])[1..] == s[1..] + [e];
      OversizeEmpties(s[1..], e, capacity);
    }
  }

  // ---- stack inclusion ----

  /** small is the most recent part of large. */
  predicate Within<K(==)>(small: seq<Entry<K>>, large: seq<Entry<K>>) {
    |small| <= |large| && small == large[|large| - |small|..]
  }

  lemma WithinHas<K>(small: seq<Entry<K>>, large: seq<Entry<K>>, k: K)
    requires Within(small, large) && Has(small, k)
    ensures Has(large, k)
  {
    var i :| 0 <= i < |small| && small[i].key == k;
    assert large[|large| - |small| + i] == small[i];
  }

  lemma {:induction false} WithinWithout<K>(small: seq<Entry<K>>, large: seq<Entry<K>>, k: K)
    requires Within(small, large)
    ensures Within(Without(small, k), Without(large, k))
    decreases |large|
  {
    if |small| < |large| {
      assert large[1..][|large| - 1 - |small|..] == small;
      WithinWithout(small, large[1..], k);
      WithinFront(Without(small, k), Without(large[1..], k), large[0]);
    } else {
      assert small == large;
    }
  }

  lemma WithinFront<K>(small: seq<Entry<K>>, large: seq<Entry<K>>, e: Entry<K>)
    requires Within(small, large)
    ensures Within(small, [e] + large)
  {
    assert ([e] + large)[|large| + 1 - |small|..] == large[|large| - |small|..];
  }

  lemma WithinAppend<K>(small: seq<Entry<K>>, large: seq<Entry<K>>, e: Entry<K>)
    requires Within(small, large)
    ensures Within(small + [e], large + [e])
  {
    assert (large + [e])[|large| - |small|..] == large[|large| - |small|..] + [e];
  }

  lemma WithinTrans<K>(a: seq<Entry<K>>, b: seq<Entry<K>>, c: seq<Entry<K>>)
    requires Within(a, b) && Within(b, c)
    ensures Within(a, c)
  {
    assert b[|b| - |a|..] == c[|c| - |b|..][|b| - |a|..] == c[|c| - |a|..];
  }

  /** The longest run that fits a smaller capacity lies within the longest run that fits a larger one. */
  lemma {:induction false} FitRunWithin<K>(small: seq<Entry<K>>, large: seq<Entry<K>>, c1: int, c2: int)
    requires Within(small, large) && c1 <= c2
    ensures Within(FitRun(small, c1), FitRun(large, c2))
    decreases |large|
  {
    var i := FitRunSuffix(small, c1);
    assert Within(FitRun(small, c1), small);
    if large == [] || Total(large) <= c2 {
      WithinTrans(FitRun(small, c1), small, large);
    } else if |small| < |large| {
      assert large[1..][|large| - 1 - |small|..] == small;
      FitRunWithin(small, large[1..], c1, c2);
    } else {
      assert small == large;
      assert Within(small[1..], large[1..]);
      FitRunWithin(small[1..], large[1..], c1, c2);
    }
  }

  lemma ServeStepWithin<K(!new)>(small: seq<Entry<K>>, large: seq<Entry<K>>, key: K, size: K -> nat, c1: int, c2: int)
    requires Sized(small, size) && Sized(large, size) && Within(small, large) && c1 <= c2
    ensures Within(ServeStep(small, key, size(key), c1), ServeStep(large, key, size(key), c2))
  {
    var e := Entry(key, size(key));
    WithinWithout(small, large, key);
    WithinAppend(Without(small, key), Without(large, key), e);
    if Has(small, key) {
      WithinHas(small, large, key);
      SizedSizeOf(small, size, key);
      SizedSizeOf(large, size, key);
    } else if Has(large, key) {
      SizedSizeOf(large, size, key);
      var i := FitRunSuffix(Without(small, key) + [e], c1);
      WithinTrans(FitRun(Without(small, key) + [e], c1), Without(small, key) + [e], Without(large, key) + [e]);
    } else {
      FitRunWithin(Without(small, key) + [e], Without(large, key) + [e], c1, c2);
    }
  }

  /** Stack inclusion for the service, oversized objects included: after every trace the smaller cache holds the
      most recent part of what the larger one holds. */
  lemma {:induction false} ServiceStackInclusion<K(!new)>(trace: seq<Request<K>>, size: K -> nat, c1: int, c2: int)
    requires 0 < c1 <= c2
    ensures Within(Served(trace, size, c1), Served(trace, size, c2))
  {
    if trace != [] {
      var before, last := trace[..|trace| - 1], trace[|trace| - 1];
      ServiceStackInclusion(before, size, c1, c2);
      ServedSized(before, size, c1);
      ServedSized(before, size, c2);
      ServeStepWithin(Served(before, size, c1), Served(before, size, c2), last.key, size, c1, c2);
    }
  }

  /** So every request that hits in the smaller cache hits in the larger one. */
  lemma ServedHitsMonotone<K(!new)>(trace: seq<Request<K>>, size: K -> nat, c1: int, c2: int, i: nat)
    requires 0 < c1 <= c2 && i < |trace|
    ensures ServedHit(trace, size, c1, i) ==> ServedHit(trace, size, c2, i)
  {
    ServiceStackInclusion(trace[..i], size, c1, c2);
    if ServedHit(trace, size, c1, i) {
      WithinHas(Served(trace[..i], size, c1), Served(trace[..i], size, c2), trace[i].key);
    }
  }

  /** The smaller simulator agrees with the larger on when each key it holds was last put. */
  ghost predicate SameTimes<K(!new)>(a: Sim<K>, b: Sim<K>) {
    forall k :: Has(a.entries, k) ==> k in a.lastTs && k in b.lastTs && a.lastTs[k] == b.lastTs[k]
  }

  lemma SameHitOrLess<K(!new)>(a: Sim<K>, b: Sim<K>, r: Request<K>, ttl: Option<real>)
    requires Within(a.entries, b.entries) && SameTimes(a, b)
    ensures GetHit(a, r.key, ttl, r.now) ==> GetHit(b, r.key, ttl, r.now)
    ensures Has(a.entries, r.key) && !GetHit(a, r.key, ttl, r.now) ==> !GetHit(b, r.key, ttl, r.now)
  {
    if Has(a.entries, r.key) {
      WithinHas(a.entries, b.entries, r.key);
    }
  }

  lemma SimEntriesWithin<K(!new)>(a: Sim<K>, b: Sim<K>, r: Request<K>, z: nat, c1: nat, c2: nat, ttl: Option<real>)
    requires Within(a.entries, b.entries) && SameTimes(a, b) && z <= c1 <= c2
    ensures Within(SimEntries(a, r, z, c1, ttl), SimEntries(b, r, z, c2, ttl))
  {
    var e := Entry(r.key, z);
    var s, t := Without(a.entries, r.key), Without(b.entries, r.key);
    WithinWithout(a.entries, b.entries, r.key);
    SameHitOrLess(a, b, r, ttl);
    if GetHit(a, r.key, ttl, r.now) {
      WithinAppend(s, t, e);
    } else if GetHit(b, r.key, ttl, r.now) {
      var i := FitRunSuffix(s, c1 - z);
      WithinTrans(FitRun(s, c1 - z), s, t);
      WithinAppend(FitRun(s, c1 - z), t, e);
    } else {
      FitRunWithin(s, t, c1 - z, c2 - z);
      WithinAppend(FitRun(s, c1 - z), FitRun(t, c2 - z), e);
    }
  }

  ghost predicate TimesOk<K(!new)>(s: Sim<K>) {
    forall k :: k in s.lastTs <==> Has(s.entries, k)
  }

  /** After a request, a key that is still held and is not the requested one keeps its timestamp. */
  lemma TimesAfterStep<K(!new)>(s: Sim<K>, r: Request<K>, size: K -> nat, capacity: nat, ttl: Option<real>)
    requires SimOk(s, size, capacity) && size(r.key) <= capacity
    requires TimesOk(s)
    ensures SimStep(s, r, size(r.key), capacity, ttl).Some?
    ensures var t := SimStep(s, r, size(r.key), capacity, ttl).value;
            && TimesOk(t)
            && r.key in t.lastTs && t.lastTs[r.key] == r.now
            && (forall k :: k in t.lastTs && k != r.key ==> k in s.lastTs && t.lastTs[k] == s.lastTs[k])
  {
    SimStepEffect(s, r, size, capacity, ttl);
    GetEffect(s, r, size, capacity, ttl);
    var g := AfterGet(s, r.key, ttl, r.now);
    WithoutHas(s.entries, r.key);
    TouchHas(s.entries, r.key);
    assert TimesOk(g);
    if Has(g.entries, r.key) {
      PutHas(g.entries, r.key, size(r.key));
    } else {
      RoomIsFitRun(g, size(r.key), capacity);
      RoomTimes(g, size(r.key), capacity);
      var room := MakeRoom(g, size(r.key), capacity).value;
      AppendHas(room.entries, r.key, size(r.key));
    }
  }

  function FrontGone<K(==)>(s: Sim<K>): Sim<K>
    requires s.entries != []
  {
    Sim(s.entries[1..], s.lastTs - {s.entries[0].key}, s.used - s.entries[0].size)
  }

  lemma FrontGoneTimes<K(!new)>(s: Sim<K>)
    requires Distinct(s.entries) && TimesOk(s) && s.entries != []
    ensures Distinct(FrontGone(s).entries) && TimesOk(FrontGone(s))
  {
    FrontEvicted(s.entries, s.entries[0].key);
    WithoutHas(s.entries, s.entries[0].key);
    WithoutDistinct(s.entries, s.entries[0].key);
  }

  /** Eviction forgets the timestamps of exactly the keys it evicts. */
  lemma {:induction false} RoomTimes<K(!new)>(s: Sim<K>, z: nat, capacity: int)
    requires Distinct(s.entries) && TimesOk(s) && MakeRoom(s, z, capacity).Some?
    ensures var r := MakeRoom(s, z, capacity).value;
            TimesOk(r) && (forall k :: k in r.lastTs ==> k in s.lastTs && r.lastTs[k] == s.lastTs[k])
    decreases |s.entries|
  {
    if s.used + z > capacity {
      FrontGoneTimes(s);
      RoomTimes(FrontGone(s), z, capacity);
    }
  }

  lemma SimStepWithin<K(!new)>(a: Sim<K>, b: Sim<K>, r: Request<K>, size: K -> nat, c1: nat, c2: nat, ttl: Option<real>)
    requires SimOk(a, size, c1) && SimOk(b, size, c2) && TimesOk(a) && TimesOk(b)
    requires Within(a.entries, b.entries) && SameTimes(a, b) && size(r.key) <= c1 <= c2
    ensures SimStep(a, r, size(r.key), c1, ttl).Some? && SimStep(b, r, size(r.key), c2, ttl).Some?
    ensures var a', b' := SimStep(a, r, size(r.key), c1, ttl).value, SimStep(b, r, size(r.key), c2, ttl).value;
            SimOk(a', size, c1) && SimOk(b', size, c2) && TimesOk(a') && TimesOk(b')
            && Within(a'.entries, b'.entries) && SameTimes(a', b')
  {
    SimStepEffect(a, r, size, c1, ttl);
    SimStepEffect(b, r, size, c2, ttl);
    SimEntriesWithin(a, b, r, size(r.key), c1, c2, ttl);
    TimesAfterStep(a, r, size, c1, ttl);
    TimesAfterStep(b, r, size, c2, ttl);
    var a', b' := SimStep(a, r, size(r.key), c1, ttl).value, SimStep(b, r, size(r.key), c2, ttl).value;
    forall k | Has(a'.entries, k) ensures k in a'.lastTs && k in b'.lastTs && a'.lastTs[k] == b'.lastTs[k] {
      WithinHas(a'.entries, b'.entries, k);
      if k != r.key {
        assert Has(a.entries, k);
      }
    }
  }

  /** Stack inclusion for the simulator with any time to live, provided no object exceeds the smaller capacity. */
  lemma {:induction false} SimulatorStackInclusion<K(!new)>(trace: seq<Request<K>>, size: K -> nat, c1: nat, c2: nat,
                                                           ttl: Option<real>)
    requires c1 <= c2 && forall r :: r in trace ==> size(r.key) <= c1
    ensures var a, b := Simulated(trace, size, c1, ttl), Simulated(trace, size, c2, ttl);
            a.Some? && b.Some? && SimOk(a.value, size, c1) && SimOk(b.value, size, c2)
            && TimesOk(a.value) && TimesOk(b.value)
            && Within(a.value.entries, b.value.entries) && SameTimes(a.value, b.value)
  {
    if trace != [] {
      var before, last := trace[..|trace| - 1], trace[|trace| - 1];
      assert last in trace && forall r :: r in before ==> r in trace;
      SimulatorStackInclusion(before, size, c1, c2, ttl);
      SimStepWithin(Simulated(before, size, c1, ttl).value, Simulated(before, size, c2, ttl).value,
                    last, size, c1, c2, ttl);
    }
  }

  /** So the simulated hits never fall when the capacity grows. */
  lemma SimulatedHitsMonotone<K(!new)>(trace: seq<Request<K>>, size: K -> nat, c1: nat, c2: nat, ttl: Option<real>,
                                       i: nat)
    requires c1 <= c2 && i < |trace| && forall r :: r in trace ==> size(r.key) <= c1
    ensures SimulatedHit(trace, size, c1, ttl, i) == Some(true) ==> SimulatedHit(trace, size, c2, ttl, i) == Some(true)
  {
    assert forall r :: r in trace[..i] ==> r in trace;
    SimulatorStackInclusion(trace[..i], size, c1, c2, ttl);
    SameHitOrLess(Simulated(trace[..i], size, c1, ttl).value, Simulated(trace[..i], size, c2, ttl).value, trace[i],
                  ttl);
  }

  // ---- traces with oversized objects ----

  /** The two caches hold the same after the first n requests. */
  ghost predicate SameAfter<K(!new)>(trace: seq<Request<K>>, size: K -> nat, capacity: nat, n: nat)
    requires n <= |trace|
  {
    var s := Simulated(trace[..n], size, capacity, None);
    s.Some? && s.value.entries == Served(trace[..n], size, capacity)
  }

  /** Request j does not ask for an oversized object right after one for an object that fits. */
  predicate NothingToLose<K>(trace: seq<Request<K>>, size: K -> nat, capacity: nat, j: nat)
    requires j < |trace|
  {
    size(trace[j].key) > capacity ==> j == 0 || size(trace[j - 1].key) > capacity
  }

  lemma NewestStays<K>(s: seq<Entry<K>>, e: Entry<K>, capacity: int)
    requires e.size <= capacity
    ensures FitRun(s + [e], capacity) != []
  {
    EvictFirstOrLast(s, e, capacity);
  }

  /** The service's cache is empty exactly at the start and after a request for an oversized object. */
  lemma ServedEmpty<K(!new)>(trace: seq<Request<K>>, size: K -> nat, capacity: nat)
    ensures Served(trace, size, capacity) == [] <==> trace == [] || size(trace[|trace| - 1].key) > capacity
  {
    if trace != [] {
      var last := trace[|trace| - 1];
      var s := Served(trace[..|trace| - 1], size, capacity);
      ServedFits(trace[..|trace| - 1], size, capacity);
      ServedSized(trace[..|trace| - 1], size, capacity);
      if size(last.key) > capacity {
        OversizedNotHeld(s, size, capacity, last.key);
        OversizeEmpties(LruSpec.Without(s, last.key), Entry(last.key, size(last.key)), capacity);
      } else if !Has(s, last.key) {
        NewestStays(LruSpec.Without(s, last.key), Entry(last.key, size(last.key)), capacity);
      }
    }
  }

  lemma {:induction false} ServedFits<K(!new)>(trace: seq<Request<K>>, size: K -> nat, capacity: nat)
    ensures Total(Served(trace, size, capacity)) <= capacity
  {
    if trace != [] {
      var last := trace[|trace| - 1];
      var s := Served(trace[..|trace| - 1], size, capacity);
      ServedFits(trace[..|trace| - 1], size, capacity);
      ServedSized(trace[..|trace| - 1], size, capacity);
      if Has(s, last.key) {
        TouchKeeps(s, last.key);
      } else {
        FitRunIsLongest(LruSpec.Put(s, last.key, size(last.key)), capacity);
      }
    }
  }

  /** An oversized object is never held. */
  lemma {:induction false} OversizedNotHeld<K(!new)>(s: seq<Entry<K>>, size: K -> nat, capacity: nat, key: K)
    requires Sized(s, size) && Total(s) <= capacity < size(key)
    ensures !Has(s, key)
  {
    if s != [] {
      assert s[0] in s;
      SizedSuffix(s, 1, size);
      OversizedNotHeld(s[1..], size, capacity, key);
    }
  }

  lemma NextSame<K(!new)>(trace: seq<Request<K>>, size: K -> nat, capacity: nat, n: nat)
    requires n < |trace| && SameAfter(trace, size, capacity, n)
    ensures SameAfter(trace, size, capacity, n + 1) <==> NothingToLose(trace, size, capacity, n)
  {
    var r, before := trace[n], trace[..n];
    assert trace[..n + 1][..n] == before && trace[..n + 1][n] == r;
    SimulatorIsSound(before, size, capacity, None);
    var s := Simulated(before, size, capacity, None).value;
    SimStepEffect(s, r, size, capacity, None);
    if size(r.key) <= capacity {
      StepsAgree(s, r, size, capacity);
    } else {
      OversizedNotHeld(s.entries, size, capacity, r.key);
      OversizeDiverges(s, r, size, capacity);
      ServedEmpty(before, size, capacity);
    }
  }

  /** Simulator and service hold the same after every prefix of a trace if and only if no request for an object larger
      than the cache directly follows one for an object that fits. */
  lemma {:induction false} TracesAgreeExactly<K(!new)>(trace: seq<Request<K>>, size: K -> nat, capacity: nat, n: nat)
    requires n <= |trace|
    ensures (forall i: nat :: i <= n ==> SameAfter(trace, size, capacity, i)) <==>
            (forall j: nat :: j < n ==> NothingToLose(trace, size, capacity, j))
  {
    hide SameAfter, NothingToLose;
    if n == 0 {
      StartSame(trace, size, capacity);
    } else {
      TracesAgreeExactly(trace, size, capacity, n - 1);
      if SameAfter(trace, size, capacity, n - 1) {
        NextSame(trace, size, capacity, n - 1);
      }
    }
  }

  lemma StartSame<K(!new)>(trace: seq<Request<K>>, size: K -> nat, capacity: nat)
    ensures SameAfter(trace, size, capacity, 0)
  {
    assert trace[..0] == [];
  }
}
