/** simulate (study/placement_locality_sim.py:113-138): one cache per node, and one hit flag per event. */
module Replay {
  import opened Types
  import opened LruSpec
  import opened Simulator
  import opened LruCompare

  /** A model identity. */
  datatype Model = Model(repo: string, revision: string)

  /** One row, its node already named from gpu type and scope. */
  datatype Event = Event(node: string, model: Model, size: nat, now: real)

  /** What the cache of one node holds after the events: only that node's events matter. Absent once it raised. */
  function NodeState(events: seq<Event>, node: string, capacity: int, ttl: Option<real>): Option<Sim<Model>> {
    if events == [] then Some(Sim([], map[], 0))
    else
      var last := events[|events| - 1];
      match NodeState(events[..|events| - 1], node, capacity, ttl)
      case None => None
      case Some(s) =>
        if last.node == node then SimStep(s, Request(last.model, last.now), last.size, capacity, ttl) else Some(s)
  }

  lemma NodeStateNext(events: seq<Event>, i: nat, node: string, capacity: int, ttl: Option<real>)
    requires i < |events|
    ensures var before, e := NodeState(events[..i], node, capacity, ttl), events[i];
            NodeState(events[..i + 1], node, capacity, ttl) ==
            if before.None? then None
            else if e.node == node then SimStep(before.value, Request(e.model, e.now), e.size, capacity, ttl)
            else before
  {
    assert events[..i + 1][..i] == events[..i];
  }

  /** Whether event i finds its model in its node's cache, as that node's earlier events left it. */
  predicate Hits(events: seq<Event>, i: nat, capacity: int, ttl: Option<real>)
    requires i < |events|
  {
    var s := NodeState(events[..i], events[i].node, capacity, ttl);
    s.Some? && GetHit(s.value, events[i].model, ttl, events[i].now)
  }

  /** Every cache object holds what its node's events so far leave; a node without one has seen none. */
  ghost predicate Agree(caches: map<string, SimCache<Model>>, past: seq<Event>, capacity: int, ttl: Option<real>)
    reads caches.Values
  {
    forall n :: if n in caches then
                  caches[n].Valid() && caches[n].capacity == capacity && caches[n].ttl == ttl
                  && NodeState(past, n, capacity, ttl) == Some(caches[n].State())
                else
                  NodeState(past, n, capacity, ttl) == Some(Sim([], map[], 0))
  }

  /** get, then put. */
  method Serve(cache: SimCache<Model>, e: Event) returns (ok: bool, hit: bool)
    requires cache.Valid()
    modifies cache
    ensures hit == GetHit(old(cache.State()), e.model, cache.ttl, e.now)
    ensures ok ==> cache.Valid()
    ensures var next := SimStep(old(cache.State()), Request(e.model, e.now), e.size, cache.capacity, cache.ttl);
            if ok then next == Some(cache.State()) else next.None?
  {
    hit := cache.Get(e.model, e.now);
    ok := cache.Put(e.model, e.size, e.now);
  }

  ghost predicate Separate(caches: map<string, SimCache<Model>>) {
    forall m, n :: m in caches && n in caches && m != n ==> caches[m] != caches[n]
  }

  /** One event, its node's cache being in place: that cache advances and the others stay as they are. */
  method Advance(caches: map<string, SimCache<Model>>, events: seq<Event>, i: nat, capacity: int, ttl: Option<real>)
    returns (ok: bool, hit: bool)
    requires i < |events| && events[i].node in caches
    requires Separate(caches) && Agree(caches, events[..i], capacity, ttl)
    modifies caches[events[i].node]
    ensures hit == Hits(events, i, capacity, ttl)
    ensures if ok then Agree(caches, events[..i + 1], capacity, ttl)
            else NodeState(events[..i + 1], events[i].node, capacity, ttl).None?
  {
    var e := events[i];
    NodeStateNext(events, i, e.node, capacity, ttl);
    ok, hit := Serve(caches[e.node], e);
    forall n | n != e.node
      ensures NodeState(events[..i + 1], n, capacity, ttl) == NodeState(events[..i], n, capacity, ttl)
    {
      NodeStateNext(events, i, n, capacity, ttl);
    }
  }

  /** hits[i] is the flag of event i. When a put raises, the replay stops at that event. */
  method Simulate(events: seq<Event>, capacity: int, ttl: Option<real>) returns (ok: bool, hits: seq<bool>)
    ensures ok ==> |hits| == |events|
    ensures !ok ==> 0 < |hits| <= |events|
                    && NodeState(events[..|hits|], events[|hits| - 1].node, capacity, ttl).None?
    ensures forall i :: 0 <= i < |hits| ==> i < |events| && hits[i] == Hits(events, i, capacity, ttl)
  {
    var caches: map<string, SimCache<Model>> := map[];
    hits := [];
    hide Hits, GetHit, SimStep;
    for i := 0 to |events|
      invariant |hits| == i
      invariant forall n :: n in caches ==> fresh(caches[n])
      invariant Separate(caches) && Agree(caches, events[..i], capacity, ttl)
      invariant forall j :: 0 <= j < i ==> hits[j] == Hits(events, j, capacity, ttl)
    {
      if events[i].node !in caches {
        var cache := new SimCache<Model>(capacity, ttl);
        caches := caches[events[i].node := cache];
      }
      var hit;
      ok, hit := Advance(caches, events, i, capacity, ttl);
      hits := hits + [hit];
      if !ok {
        return;
      }
    }
    ok := true;
  }

  /** With one size per model the replay never raises, whatever the time to live. */
  lemma {:induction false} FixedSizesNeverRaise(events: seq<Event>, node: string, capacity: nat, ttl: Option<real>,
                                                size: Model -> nat)
    requires forall e :: e in events ==> e.size == size(e.model)
    ensures NodeState(events, node, capacity, ttl).Some?
    ensures SimOk(NodeState(events, node, capacity, ttl).value, size, capacity)
  {
    if events != [] {
      hide SimOk, SimStep;
      var before, last := events[..|events| - 1], events[|events| - 1];
      assert last in events && forall e :: e in before ==> e in events;
      FixedSizesNeverRaise(before, node, capacity, ttl, size);
      SimStepEffect(NodeState(before, node, capacity, ttl).value, Request(last.model, last.now), size, capacity, ttl);
    }
  }
}
