/** Progress of a fleet (shim-go/peer_fetch.go:14-155, shim-go/xorb.go:90-205): nodes that name each other as peers do
    not keep each other busy. A race dials one peer once, and what it asks there leads no flight. */
module FleetProgress {
  import opened Types
  import opened Seqs
  import opened Node
  import opened NodeShape
  import NodeSlots
  import opened NodeProgress
  import opened Fleet

  // ---- what is left to do ----

  function Races(n: Node): int { |n.races| }

  /** A node's own work, and a credit for each of its races. */
  ghost function NodeLeft(n: Node): int { Left(n) + CREDIT * |n.races| }

  /** A link has spent the credit of its race. */
  ghost function FleetLeft(s: Fleet): int {
    Sum(s.nodes, NodeLeft) - CREDIT * |s.links|
  }

  // ---- links are no more than races ----

  function Row(i: nat, m: nat): set<(nat, nat)> {
    set q: nat | q < m :: (i, q)
  }

  function Grid(nodes: seq<Node>, k: nat): set<(nat, nat)>
    requires k <= |nodes|
  {
    set i: nat, q: nat | i < k && q < |nodes[i].races| :: (i, q)
  }

  lemma {:induction false} RowCounted(i: nat, m: nat)
    ensures |Row(i, m)| == m
  {
    if m > 0 {
      RowCounted(i, m - 1);
      assert Row(i, m) == Row(i, m - 1) + {(i, m - 1)};
    }
  }

  lemma {:induction false} GridCounted(nodes: seq<Node>, k: nat)
    requires k <= |nodes|
    ensures |Grid(nodes, k)| == Sum(nodes[..k], Races)
  {
    if k > 0 {
      GridCounted(nodes, k - 1);
      RowCounted(k - 1, |nodes[k - 1].races|);
      assert Grid(nodes, k) == Grid(nodes, k - 1) + Row(k - 1, |nodes[k - 1].races|);
      assert nodes[..k] == nodes[..k - 1] + [nodes[k - 1]];
      SumAppend(nodes[..k - 1], nodes[k - 1], Races);
    }
  }

  lemma LinksWithinRaces(s: Fleet)
    requires LinksOk(s)
    ensures |s.links| <= Sum(s.nodes, Races)
  {
    var grid := Grid(s.nodes, |s.nodes|);
    forall p | p in s.links.Keys ensures p in grid {
      assert LinkOk(s, p.0, p.1);
    }
    assert grid == s.links.Keys + (grid - s.links.Keys);
    GridCounted(s.nodes, |s.nodes|);
    assert s.nodes[..|s.nodes|] == s.nodes;
  }

  lemma {:induction false} NodesHaveRaces(nodes: seq<Node>)
    ensures CREDIT * Sum(nodes, Races) <= Sum(nodes, NodeLeft)
  {
    if nodes != [] {
      LeftIsNatural(nodes[0]);
      NodesHaveRaces(nodes[1..]);
    }
  }

  lemma FleetLeftIsNatural(s: Fleet)
    requires LinksOk(s)
    ensures 0 <= FleetLeft(s)
  {
    LinksWithinRaces(s);
    NodesHaveRaces(s.nodes);
  }

  // ---- what a move uses ----

  predicate Arrives(move: Move) { move.Local? && move.step.Arrive? }

  /** Moves that bring a request from outside the fleet: a client's, or a probe's HEAD. */
  function Arrivals(moves: seq<Move>): nat {
    if moves == [] then 0 else (if Arrives(moves[0]) then 1 else 0) + Arrivals(moves[1..])
  }

  lemma ArrivalCosts(cfg: Config, n: Node, kind: Kind, key: Key)
    ensures NodeLeft(Apply(cfg, n, Arrive(kind, key))) <=
            NodeLeft(n) + (if kind.ClientGet? then CLIENT_LEFT else CREDIT - 1)
  {
    var m := Apply(cfg, n, Arrive(kind, key));
    SumAppend(n.reqs, m.reqs[|n.reqs|], RequestLeft);
  }

  lemma NodeMoveUses(w: World, s: Fleet, i: nat, step: Step)
    requires FleetInv(w, s) && i < |s.nodes| && Enabled(w.cfgs[i], s.nodes[i], step) && !step.Arrive?
    ensures FleetLeft(s.(nodes := s.nodes[i := Apply(w.cfgs[i], s.nodes[i], step)])) < FleetLeft(s)
  {
    hide Left, Shape, Apply, Enabled, LinksOk;
    StepUses(w.cfgs[i], s.nodes[i], step);
    SumUpdate(s.nodes, i, Apply(w.cfgs[i], s.nodes[i], step), NodeLeft);
  }

  lemma DialUses(w: World, s: Fleet, i: nat, q: nat)
    requires CanDo(w, s, Dial(i, q))
    ensures FleetLeft(Do(w, s, Dial(i, q))) < FleetLeft(s)
  {
    hide NodeLeft, Apply;
    var j := Target(s, i, q);
    var key := s.nodes[i].flights[s.nodes[i].races[q].flight].key;
    ArrivalCosts(w.cfgs[j], s.nodes[j], PeerGet, key);
    SumUpdate(s.nodes, j, Apply(w.cfgs[j], s.nodes[j], Arrive(PeerGet, key)), NodeLeft);
  }

  lemma OutsideArrivalCosts(w: World, s: Fleet, i: nat, kind: Kind, key: Key)
    requires CanDo(w, s, Local(i, Arrive(kind, key)))
    ensures FleetLeft(Do(w, s, Local(i, Arrive(kind, key)))) <= FleetLeft(s) + CLIENT_LEFT
  {
    hide NodeLeft, Apply;
    ArrivalCosts(w.cfgs[i], s.nodes[i], kind, key);
    SumUpdate(s.nodes, i, Apply(w.cfgs[i], s.nodes[i], Arrive(kind, key)), NodeLeft);
  }

  /** Every move but an outside arrival uses up work. */
  lemma MoveUses(w: World, s: Fleet, move: Move)
    requires FleetInv(w, s) && CanDo(w, s, move)
    ensures if Arrives(move) then FleetLeft(Do(w, s, move)) <= FleetLeft(s) + CLIENT_LEFT
            else FleetLeft(Do(w, s, move)) < FleetLeft(s)
  {
    hide FleetLeft, FleetInv, Apply;
    match move
    case Local(i, step) =>
      if step.Arrive? {
        OutsideArrivalCosts(w, s, i, step.kind, step.key);
      } else {
        NodeMoveUses(w, s, i, step);
      }
    case Dial(i, q) => DialUses(w, s, i, q);
    case Deliver(i, q) => NodeMoveUses(w, s, i, RaceStep(q, Delivered(s, i, q)));
  }

  // ---- runs ----

  /** The moves lead from s to t. */
  ghost predicate Goes(w: World, s: Fleet, moves: seq<Move>, t: Fleet)
    decreases |moves|
  {
    if moves == [] then s == t
    else CanDo(w, s, moves[0]) && Goes(w, Do(w, s, moves[0]), moves[1..], t)
  }

  lemma {:induction false} GoesUses(w: World, s: Fleet, moves: seq<Move>, t: Fleet)
    requires FleetInv(w, s) && Goes(w, s, moves, t)
    ensures FleetInv(w, t) && FleetLeft(t) + |moves| <= FleetLeft(s) + (CLIENT_LEFT + 1) * Arrivals(moves)
    decreases |moves|
  {
    hide FleetInv, FleetLeft, CanDo, Do, Arrives;
    if moves != [] {
      MoveKeepsInv(w, s, moves[0]);
      MoveUses(w, s, moves[0]);
      GoesUses(w, Do(w, s, moves[0]), moves[1..], t);
    }
  }

  lemma FleetRunExtends(w: World, first: Fleet, past: seq<Move>, s: Fleet, move: Move)
    requires FleetRun(w, first, past, s) && CanDo(w, s, move)
    ensures FleetRun(w, first, past + [move], Do(w, s, move))
  {
    hide CanDo, Do;
    assert (past + [move])[..|past|] == past;
  }

  lemma {:induction false} GoesExtends(w: World, first: Fleet, past: seq<Move>, s: Fleet, moves: seq<Move>, t: Fleet)
    requires FleetRun(w, first, past, s) && Goes(w, s, moves, t)
    ensures FleetRun(w, first, past + moves, t)
    decreases |moves|
  {
    hide FleetRun, CanDo, Do;
    if moves == [] {
      assert past + moves == past;
    } else {
      FleetRunExtends(w, first, past, s, moves[0]);
      GoesExtends(w, first, past + [moves[0]], Do(w, s, moves[0]), moves[1..], t);
      assert past + [moves[0]] + moves[1..] == past + moves;
    }
  }

  // ---- each node of a fleet runs as a node ----

  /** A move changes a node by one of its steps, or not at all. */
  lemma MoveOfNode(w: World, s: Fleet, move: Move, k: nat) returns (step: Option<Step>)
    requires FleetInv(w, s) && CanDo(w, s, move) && k < |s.nodes|
    ensures |Do(w, s, move).nodes| == |s.nodes| == |w.cfgs|
    ensures if step.None? then Do(w, s, move).nodes[k] == s.nodes[k]
            else Enabled(w.cfgs[k], s.nodes[k], step.value)
                 && Do(w, s, move).nodes[k] == Apply(w.cfgs[k], s.nodes[k], step.value)
  {
    hide Apply, LocalStep, Shape, LinksOk;
    match move
    case Local(i, st) => step := if i == k then Some(st) else None;
    case Dial(i, q) =>
      var arrival := Arrive(PeerGet, s.nodes[i].flights[s.nodes[i].races[q].flight].key);
      step := if Target(s, i, q) == k then Some(arrival) else None;
    case Deliver(i, q) => step := if i == k then Some(RaceStep(q, Delivered(s, i, q))) else None;
  }

  lemma {:induction false} NodeOfFleet(w: World, first: Fleet, moves: seq<Move>, s: Fleet, k: nat)
    returns (steps: seq<Step>)
    requires FleetRun(w, first, moves, s) && k < |s.nodes|
    ensures |first.nodes| == |s.nodes| == |w.cfgs| && Run(w.cfgs[k], first.nodes[k], steps, s.nodes[k])
    decreases |moves|
  {
    if moves == [] {
      steps := [];
    } else {
      var before, last := moves[..|moves| - 1], moves[|moves| - 1];
      var m :| FleetRun(w, first, before, m) && CanDo(w, m, last) && s == Do(w, m, last);
      hide FleetRun, Run, Enabled, Apply, CanDo, Do, FleetInv;
      FleetKeepsInv(w, first, before, m);
      NodesStay(w, m, last);
      steps := NodeOfFleet(w, first, before, m, k);
      var step := MoveOfNode(w, m, last, k);
      if step.Some? {
        RunExtends(w.cfgs[k], first.nodes[k], steps, m.nodes[k], step.value);
        steps := steps + [step.value];
      }
    }
  }

  lemma NodesStay(w: World, s: Fleet, move: Move)
    requires CanDo(w, s, move)
    ensures |Do(w, s, move).nodes| == |s.nodes|
  {
  }

  // ---- every request of the fleet is answered ----

  /** Some node can move by itself. */
  ghost predicate FleetCanMove(w: World, s: Fleet) {
    exists i: nat, step :: NodeSlots.OwnStep(step) && CanDo(w, s, Local(i, step))
  }

  lemma NodeMovesFleet(w: World, s: Fleet, i: nat)
    requires |w.cfgs| == |s.nodes| && i < |s.nodes| && NodeSlots.CanMove(w.cfgs[i], s.nodes[i])
    ensures FleetCanMove(w, s)
  {
    hide Enabled;
    var step :| Enabled(w.cfgs[i], s.nodes[i], step) && NodeSlots.OwnStep(step);
    assert CanDo(w, s, Local(i, step));
  }

  /** Whatever peer lists the nodes have: from a reachable state a fleet makes at most FleetLeft(s) moves without
      arrivals from outside, and CLIENT_LEFT + 1 more for each arrival, in whatever order; and none of its nodes can
      move by itself only when every request on every node has its answer. */
  lemma FleetAnswersEveryRequest(w: World, first: Fleet, past: seq<Move>, s: Fleet, moves: seq<Move>, t: Fleet)
    requires FleetRun(w, first, past, s) && Goes(w, s, moves, t)
    ensures |moves| <= FleetLeft(s) + (CLIENT_LEFT + 1) * Arrivals(moves)
    ensures !FleetCanMove(w, t) ==> forall i :: 0 <= i < |t.nodes| ==> AtRest(t.nodes[i])
  {
    FleetKeepsInv(w, first, past, s);
    GoesUses(w, s, moves, t);
    FleetLeftIsNatural(t);
    GoesExtends(w, first, past, s, moves, t);
    hide FleetRun, FleetInv, Goes, FleetLeft, FleetCanMove, Run, NodeSlots.CanMove, Unfinished;
    forall i: nat, r: nat | i < |t.nodes| && r < |t.nodes[i].reqs| && Unfinished(t.nodes[i].reqs[r].st)
      ensures FleetCanMove(w, t)
    {
      var steps := NodeOfFleet(w, first, past + moves, t, i);
      NodeSlots.NoDeadlock(w.cfgs[i], first.nodes[i], steps, t.nodes[i], r);
      NodeMovesFleet(w, t, i);
    }
  }
}
