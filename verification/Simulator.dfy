/** The cache of the placement simulator (study/placement_locality_sim.py:56-95) and its replay loops: evict, then
    insert, with an oversize bypass and an optional time to live. */
module Simulator {
  import opened Types
  import opened LruSpec

  // ---- the cache on values ----

  /** The ordered dictionary as its (key, size) items in order, least recent first, with the last timestamp of
      each key, and the running byte count. */
  datatype Sim<K> = Sim(entries: seq<Entry<K>>, lastTs: map<K, real>, used: int)

  predicate Stale<K>(s: Sim<K>, key: K, ttl: Option<real>, now: real) {
    ttl.Some? && key in s.lastTs && now - s.lastTs[key] > ttl.value
  }

  function Popped<K>(s: Sim<K>, key: K): Sim<K> {
    Sim(Without(s.entries, key), s.lastTs - {key}, s.used - SizeOf(s.entries, key))
  }

  function GetHit<K>(s: Sim<K>, key: K, ttl: Option<real>, now: real): bool {
    Has(s.entries, key) && !Stale(s, key, ttl, now)
  }

  function AfterGet<K>(s: Sim<K>, key: K, ttl: Option<real>, now: real): Sim<K> {
    if !Has(s.entries, key) then s
    else if Stale(s, key, ttl, now) then Popped(s, key)
    else s.(entries := Touch(s.entries, key))
  }

  /** The eviction loop of put: absent when it runs out of entries, where next(iter(...)) raises. */
  function MakeRoom<K>(s: Sim<K>, size: nat, capacity: int): Option<Sim<K>>
    decreases |s.entries|
  {
    if s.used + size <= capacity then Some(s)
    else if s.entries == [] then None
    else MakeRoom(Sim(s.entries[1..], s.lastTs - {s.entries[0].key}, s.used - s.entries[0].size), size, capacity)
  }

  function AfterPut<K>(s: Sim<K>, key: K, size: nat, capacity: int, now: real): Option<Sim<K>> {
    if Has(s.entries, key) then
      Some(Sim(Put(s.entries, key, size), s.lastTs[key := now], s.used))
    else if size > capacity then Some(s)
    else
      match MakeRoom(s, size, capacity)
      case None => None
      case Some(r) => Some(Sim(r.entries + [Entry(key, size)], r.lastTs[key := now], r.used + size))
  }

  // ---- the cache as an object ----

  class SimCache<K(==, !new)> {
    const capacity: int
    const ttl: Option<real>
    var entries: seq<Entry<K>>
    var lastTs: map<K, real>
    var used: int

    ghost predicate Valid()
      reads this
    {
      Distinct(entries) && forall k :: k in lastTs <==> Has(entries, k)
    }

    ghost function State(): Sim<K>
      reads this
    {
      Sim(entries, lastTs, used)
    }

    constructor (capacity: int, ttl: Option<real>)
      ensures Valid() && State() == Sim([], map[], 0)
      ensures this.capacity == capacity && this.ttl == ttl
    {
      this.capacity := capacity;
      this.ttl := ttl;
      entries, lastTs, used := [], map[], 0;
    }

    method Get(key: K, now: real) returns (hit: bool)
      requires Valid()
      modifies this
      ensures Valid()
      ensures hit == GetHit(old(State()), key, ttl, now)
      ensures State() == AfterGet(old(State()), key, ttl, now)
    {
      if key !in lastTs {
        return false;
      }
      if ttl.Some? && now - lastTs[key] > ttl.value {
        Evict(key);
        return false;
      }
      TouchKeeps(entries, key);
      TouchHas(entries, key);
      entries := Touch(entries, key);
      return true;
    }

    method Evict(key: K)
      requires Valid() && Has(entries, key)
      modifies this
      ensures Valid()
      ensures State() == Popped(old(State()), key)
    {
      WithoutDistinct(entries, key);
      WithoutHas(entries, key);
      used := used - SizeOf(entries, key);
      entries := Without(entries, key);
      lastTs := lastTs - {key};
    }

    /** ok is false when the loop ran out of entries to evict: the exception of the original. */
    method Put(key: K, size: nat, now: real) returns (ok: bool)
      requires Valid()
      modifies this
      ensures ok ==> Valid()
      ensures ok <==> AfterPut(old(State()), key, size, capacity, now).Some?
      ensures ok ==> AfterPut(old(State()), key, size, capacity, now) == Some(State())
    {
      if key in lastTs {
        PutKeeps(entries, key, size);
        PutHas(entries, key, size);
        entries := LruSpec.Put(entries, key, size);
        lastTs := lastTs[key := now];
        return true;
      }
      if size > capacity {
        return true;
      }
      while used + size > capacity
        invariant Valid() && !Has(entries, key)
        invariant MakeRoom(old(State()), size, capacity) == MakeRoom(State(), size, capacity)
        decreases |entries|
      {
        if entries == [] {
          return false;
        }
        FrontEvicted(entries, key);
        Evict(entries[0].key);
      }
      AppendHas(entries, key, size);
      entries := entries + [Entry(key, size)];
      lastTs := lastTs[key := now];
      used := used + size;
      return true;
    }
  }

  // ---- membership ----

  lemma HasMember<K>(s: seq<Entry<K>>, k: K)
    ensures Has(s, k) <==> exists e :: e in s && e.key == k
  {
    if Has(s, k) {
      var i :| 0 <= i < |s| && s[i].key == k;
      assert s[i] in s;
    }
  }

  lemma WithoutHas<K>(s: seq<Entry<K>>, k: K)
    ensures forall j :: Has(Without(s, k), j) <==> Has(s, j) && j != k
  {
    forall j ensures Has(Without(s, k), j) <==> Has(s, j) && j != k {
      WithoutMembers(s, k);
      HasMember(s, j);
      HasMember(Without(s, k), j);
    }
  }

  lemma AppendHas<K>(s: seq<Entry<K>>, k: K, z: nat)
    ensures forall j :: Has(s + [Entry(k, z)], j) <==> Has(s, j) || j == k
  {
    var t := s + [Entry(k, z)];
    forall j ensures Has(t, j) <==> Has(s, j) || j == k {
      assert t[|s|].key == k;
      if Has(s, j) {
        var i :| 0 <= i < |s| && s[i].key == j;
        assert t[i].key == j;
      }
    }
  }

  lemma PutHas<K>(s: seq<Entry<K>>, k: K, z: nat)
    ensures forall j :: Has(Put(s, k, z), j) <==> Has(s, j) || j == k
  {
    WithoutHas(s, k);
    AppendHas(Without(s, k), k, z);
  }

  lemma TouchHas<K>(s: seq<Entry<K>>, k: K)
    ensures forall j :: Has(Touch(s, k), j) <==> Has(s, j)
  {
    if Has(s, k) {
      PutHas(s, k, SizeOf(s, k));
    }
  }

  /** Popping the least recent key drops the first item. */
  lemma FrontEvicted<K>(s: seq<Entry<K>>, key: K)
    requires s != [] && Distinct(s)
    ensures Has(s, s[0].key) && Without(s, s[0].key) == s[1..] && SizeOf(s, s[0].key) == s[0].size
    ensures !Has(s, key) ==> !Has(s[1..], key)
  {
    forall i | 0 <= i < |s[1..]| ensures s[1..][i].key != s[0].key && s[1..][i] == s[i + 1] {
    }
    assert !Has(s[1..], s[0].key);
    WithoutAbsent(s[1..], s[0].key);
  }

  // ---- byte accounting ----

  /** used is the sum of the sizes held. */
  ghost predicate Exact<K>(s: Sim<K>) {
    s.used == Total(s.entries)
  }

  /** put raises exactly when it must make room and the bytes that used counts beyond those held, together
      with the new object, do not fit. */
  lemma {:induction false} MakeRoomRaises<K>(s: Sim<K>, size: nat, capacity: int)
    ensures MakeRoom(s, size, capacity).None? <==> s.used - Total(s.entries) + size > capacity
    decreases |s.entries|
  {
    if s.used + size > capacity && s.entries != [] {
      MakeRoomRaises(Sim(s.entries[1..], s.lastTs - {s.entries[0].key}, s.used - s.entries[0].size), size, capacity);
    }
  }

  lemma PutRaisesExactly<K>(s: Sim<K>, key: K, size: nat, capacity: int, now: real)
    ensures AfterPut(s, key, size, capacity, now).None? <==>
            !Has(s.entries, key) && size <= capacity && s.used - Total(s.entries) + size > capacity
  {
    MakeRoomRaises(s, size, capacity);
  }

  lemma {:induction false} RoomIsFitRun<K>(s: Sim<K>, size: nat, capacity: int)
    requires Exact(s) && size <= capacity
    ensures var r := MakeRoom(s, size, capacity);
            r.Some? && Exact(r.value) && r.value.entries == FitRun(s.entries, capacity - size)
            && r.value.used + size <= capacity
            && (forall k :: k in r.value.lastTs ==> k in s.lastTs && r.value.lastTs[k] == s.lastTs[k])
    decreases |s.entries|
  {
    if s.used + size > capacity {
      RoomIsFitRun(Sim(s.entries[1..], s.lastTs - {s.entries[0].key}, s.used - s.entries[0].size), size, capacity);
    }
  }

  /** A put keeps the byte count exact if and only if it does not resize an object that is held. */
  lemma PutKeepsExact<K>(s: Sim<K>, key: K, size: nat, capacity: int, now: real)
    requires Distinct(s.entries) && Exact(s)
    ensures AfterPut(s, key, size, capacity, now).Some?
    ensures Exact(AfterPut(s, key, size, capacity, now).value) <==>
            (Has(s.entries, key) ==> SizeOf(s.entries, key) == size)
  {
    PutRaisesExactly(s, key, size, capacity, now);
    if Has(s.entries, key) {
      TotalPut(s.entries, key, size);
    } else if size <= capacity {
      RoomIsFitRun(s, size, capacity);
      var r := MakeRoom(s, size, capacity).value;
      TotalConcat(r.entries, [Entry(key, size)]);
      assert Total([Entry(key, size)]) == size + Total<K>([]);
    }
  }

  lemma GetKeepsExact<K>(s: Sim<K>, key: K, ttl: Option<real>, now: real)
    requires Distinct(s.entries) && Exact(s)
    ensures Exact(AfterGet(s, key, ttl, now))
  {
    TouchKeeps(s.entries, key);
    TotalWithout(s.entries, key);
  }

  /** Objects that change size break the count: an object of 10 bytes shrinks to 5, and the next put of 10 bytes
      into a cache of 10 runs out of entries to evict. */
  lemma ResizeMakesPutRaise(empty: Sim<int>, now: real)
    requires empty == Sim([], map[], 0)
    ensures var a := AfterPut(empty, 1, 10, 10, now);
            a.Some? &&
            var b := AfterPut(a.value, 1, 5, 10, now);
            b.Some? && AfterPut(b.value, 2, 10, 10, now).None?
  {
    var a := AfterPut(empty, 1, 10, 10, now).value;
    assert a.entries == [Entry(1, 10)] && a.used == 10;
    assert a.entries[0].key == 1;
    var b := AfterPut(a, 1, 5, 10, now).value;
    assert b.entries == [Entry(1, 5)] && b.used == 10;
    assert !Has(b.entries, 2);
    assert Total(b.entries) == 5 + Total<int>([]);
    PutRaisesExactly(b, 2, 10, 10, now);
  }
}
