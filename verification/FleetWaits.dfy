/** Who waits for whom inside a fleet (shim-go/xorb.go:117-176, shim-go/server.go:87-123): a peer-marked request
    waits on no other node, so the wait-for graph has no cycle even when nodes peer with each other. */
module FleetWaits {
  import R = Race
  import opened Node
  import opened NodeShape
  import opened Fleet

  datatype Party =
    | RequestOf(node: nat, id: nat)
    | FlightOf(node: nat, id: nat)
    | PeerSide(node: nat, id: nat)        // a race waiting for its peer GET
    | Hedge(node: nat, id: nat)           // a CDN goroutine

  predicate HoldsSlot(st: FlightState) {
    || st.Holding? || st.Releasing?
    || ((st.Fetched? || st.Written? || st.Recording? || st.Recorded?) && st.via.ViaPlain?)
  }

  /** The caller's select waits for the CDN goroutine, alone or beside the peer. */
  predicate AwaitsCdn(r: R.Race) {
    (r.main.Hedged? || r.main.AwaitCdn?) && !r.cdn.CdnIdle? && !r.cdn.CdnSent?
  }

  /** a is held up by b: it cannot proceed before b does, or b is one of the two sides its select waits for. */
  ghost predicate WaitsFor(s: Fleet, a: Party, b: Party) {
    a.node < |s.nodes| && b.node < |s.nodes| &&
    var n := s.nodes[a.node];
    match (a, b)
    case (RequestOf(i, r), FlightOf(j, f)) =>
      && i == j && r < |n.reqs|
      && ((n.reqs[r].st == Waiting(f) && f < |n.flights| && !n.flights[f].st.Finished?)
          || ((n.reqs[r].st.HitRead? || n.reqs[r].st.HeadFound?) && n.lock.Busy? && n.lock.flight == f))
    case (FlightOf(i, f), PeerSide(j, q)) =>
      && i == j && f < |n.flights| && n.flights[f].st.InRace? && n.flights[f].st.race == q
      && q < |n.races| && n.races[q].race.peer.PeerRunning?
    case (FlightOf(i, f), RequestOf(j, r)) =>      // a probe may have sent any HEAD for its key
      && f < |n.flights| && n.flights[f].st.Probing? && r < |s.nodes[j].reqs|
      && s.nodes[j].reqs[r].kind.Head? && s.nodes[j].reqs[r].key == n.flights[f].key
      && Unfinished(s.nodes[j].reqs[r].st)
    case (PeerSide(i, q), RequestOf(j, r)) =>
      && (i, q) in s.links && q < |n.races| && Target(s, i, q) == j && s.links[(i, q)] == r
      && n.races[q].race.peer.PeerRunning?
      && r < |s.nodes[j].reqs| && Unfinished(s.nodes[j].reqs[r].st)
    case (FlightOf(i, f), FlightOf(j, g)) =>
      && i == j && f < |n.flights| && g < |n.flights|
      && ((n.flights[f].st.Queued? && HoldsSlot(n.flights[g].st))
          || (n.flights[f].st.Written? && n.lock.Busy? && n.lock.flight == g))
    case (FlightOf(i, f), Hedge(j, q)) =>
      && i == j && f < |n.flights| && q < |n.races|
      && ((n.flights[f].st.Queued? && R.Holds(n.races[q].race) == 1)
          || (n.flights[f].st.InRace? && n.flights[f].st.race == q && AwaitsCdn(n.races[q].race)))
    case _ => false
  }

  /** How far a party is from the work it depends on. */
  function Rank(s: Fleet, p: Party): nat {
    match p
    case RequestOf(i, r) =>
      if i < |s.nodes| && r < |s.nodes[i].reqs| && s.nodes[i].reqs[r].kind.ClientGet? then 4 else 1
    case PeerSide(_, _) => 2
    case Hedge(_, _) => 0
    case FlightOf(i, f) =>
      if i >= |s.nodes| || f >= |s.nodes[i].flights| then 0
      else
        var st := s.nodes[i].flights[f].st;
        if st.Recording? then 0 else if HoldsSlot(st) then 1 else 3
  }

  lemma WaitingLowersRank(w: World, s: Fleet, a: Party, b: Party)
    requires FleetInv(w, s) && WaitsFor(s, a, b)
    ensures Rank(s, b) < Rank(s, a)
  {
    var n := s.nodes[a.node];
    assert Shape(w.cfgs[a.node], n);
    if a.PeerSide? {
      assert LinkOk(s, a.node, a.id);
    }
  }

  /** A chain in which each party waits for the next. */
  ghost predicate Chain(s: Fleet, p: seq<Party>) {
    forall i :: 0 <= i < |p| - 1 ==> WaitsFor(s, p[i], p[i + 1])
  }

  lemma {:induction false} ChainLowersRank(w: World, s: Fleet, p: seq<Party>)
    requires FleetInv(w, s) && Chain(s, p) && p != []
    ensures Rank(s, p[|p| - 1]) + |p| - 1 <= Rank(s, p[0])
    decreases |p|
  {
    if |p| > 1 {
      WaitingLowersRank(w, s, p[0], p[1]);
      forall i | 0 <= i < |p[1..]| - 1 ensures WaitsFor(s, p[1..][i], p[1..][i + 1]) {
        assert WaitsFor(s, p[i + 1], p[i + 1 + 1]);
      }
      ChainLowersRank(w, s, p[1..]);
    }
  }

  /** In every reachable state of the fleet no chain of waits returns to its start or has more than four links. */
  lemma NoWaitCycle(w: World, first: Fleet, moves: seq<Move>, s: Fleet, p: seq<Party>)
    requires FleetRun(w, first, moves, s) && Chain(s, p) && 2 <= |p|
    ensures p[0] != p[|p| - 1] && |p| <= 5
  {
    hide FleetRun, FleetInv, Chain;
    FleetKeepsInv(w, first, moves, s);
    ChainLowersRank(w, s, p);
  }

  /** One hop: a peer-marked request never waits for another node, nor for a flight's fetch; it can only wait
      for the local Record that holds the LRU lock. */
  lemma PeerRequestWaitsForNoNode(w: World, first: Fleet, moves: seq<Move>, s: Fleet, i: nat, r: nat, b: Party)
    requires FleetRun(w, first, moves, s) && WaitsFor(s, RequestOf(i, r), b)
    requires !s.nodes[i].reqs[r].kind.ClientGet?
    ensures b.node == i && s.nodes[i].lock.Busy? && b == FlightOf(i, s.nodes[i].lock.flight)
    ensures s.nodes[i].lock.flight < |s.nodes[i].flights| && s.nodes[i].flights[s.nodes[i].lock.flight].st.Recording?
  {
    FleetKeepsInv(w, first, moves, s);
    assert Shape(w.cfgs[i], s.nodes[i]);
  }
}
