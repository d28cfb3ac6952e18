/** A fleet of nodes with arbitrary, possibly mutual, peer lists (shim-go/peer_fetch.go:79-155,
    shim-go/xorb.go:90-150). A race's peer GET is a peer-marked request at the node it dials; any answer may be
    lost, late or refused, but a body that arrives is the body that node served. */
module Fleet {
  import opened Types
  import R = Race
  import opened Node
  import opened NodeShape
  import opened NodeTruth

  /** links: the request at the target that carries race q of node i. */
  datatype Fleet = Fleet(nodes: seq<Node>, links: map<(nat, nat), nat>)

  /** What every node runs with, and what the CDN returns for each key. */
  datatype World = World(cfgs: seq<Config>, truth: Key -> Body)

  datatype Move =
    | Local(i: nat, step: Step)
    | Dial(i: nat, q: nat)
    | Deliver(i: nat, q: nat)

  function Target(s: Fleet, i: nat, q: nat): nat
    requires i < |s.nodes| && q < |s.nodes[i].races|
  {
    s.nodes[i].races[q].target
  }

  /** A step that needs no other node: the CDN tells the truth, and a peer GET fails for any reason. */
  ghost predicate LocalStep(w: World, n: Node, step: Step) {
    match step
    case RaceStep(q, rs) => (rs.PeerDone? ==> !rs.reply.ok) && TrueStep(w.truth, n, step)
    case _ => TrueStep(w.truth, n, step)
  }

  /** The body the dialled node served for race q of node i. */
  function Delivered(s: Fleet, i: nat, q: nat): R.Step
    requires i < |s.nodes| && q < |s.nodes[i].races| && (i, q) in s.links && Target(s, i, q) < |s.nodes|
    requires s.links[(i, q)] < |s.nodes[Target(s, i, q)].reqs|
    requires s.nodes[Target(s, i, q)].reqs[s.links[(i, q)]].st.Served?
  {
    R.PeerDone(R.Answer(true, s.nodes[Target(s, i, q)].reqs[s.links[(i, q)]].st.body, 0))
  }

  ghost predicate CanDo(w: World, s: Fleet, move: Move) {
    && |w.cfgs| == |s.nodes|
    && move.i < |s.nodes|
    && match move {
         case Local(i, step) => LocalStep(w, s.nodes[i], step) && Enabled(w.cfgs[i], s.nodes[i], step)
         case Dial(i, q) =>
           && q < |s.nodes[i].races| && (i, q) !in s.links && Target(s, i, q) < |s.nodes|
           && s.nodes[i].races[q].race.peer.PeerRunning?
           && s.nodes[i].races[q].flight < |s.nodes[i].flights|
         case Deliver(i, q) =>
           && q < |s.nodes[i].races| && (i, q) in s.links && Target(s, i, q) < |s.nodes|
           && s.links[(i, q)] < |s.nodes[Target(s, i, q)].reqs|
           && s.nodes[Target(s, i, q)].reqs[s.links[(i, q)]].st.Served?
           && Enabled(w.cfgs[i], s.nodes[i], RaceStep(q, Delivered(s, i, q)))
       }
  }

  ghost function Do(w: World, s: Fleet, move: Move): Fleet
    requires CanDo(w, s, move)
  {
    match move
    case Local(i, step) => s.(nodes := s.nodes[i := Apply(w.cfgs[i], s.nodes[i], step)])
    case Dial(i, q) =>
      var j := Target(s, i, q);
      var arrival := Arrive(PeerGet, s.nodes[i].flights[s.nodes[i].races[q].flight].key);
      Fleet(s.nodes[j := Apply(w.cfgs[j], s.nodes[j], arrival)], s.links[(i, q) := |s.nodes[j].reqs|])
    case Deliver(i, q) =>
      s.(nodes := s.nodes[i := Apply(w.cfgs[i], s.nodes[i], RaceStep(q, Delivered(s, i, q)))])
  }

  ghost predicate FleetInit(w: World, s: Fleet) {
    && |w.cfgs| == |s.nodes| && s.links == map[]
    && forall i :: 0 <= i < |s.nodes| ==>
         Init(w.cfgs[i], s.nodes[i]) && forall k :: k in s.nodes[i].disk ==> s.nodes[i].disk[k] == w.truth(k)
  }

  ghost predicate FleetRun(w: World, first: Fleet, moves: seq<Move>, s: Fleet)
    decreases |moves|
  {
    if moves == [] then
      s == first && FleetInit(w, first)
    else
      var before, last := moves[..|moves| - 1], moves[|moves| - 1];
      exists m :: FleetRun(w, first, before, m) && CanDo(w, m, last) && s == Do(w, m, last)
  }

  // ---- what every move keeps ----

  /** A link leads to a peer-marked request for the key its race is about. */
  ghost predicate LinkOk(s: Fleet, i: nat, q: nat) {
    (i, q) in s.links ==>
      && i < |s.nodes| && q < |s.nodes[i].races|
      && s.nodes[i].races[q].flight < |s.nodes[i].flights|
      && Target(s, i, q) < |s.nodes|
      && var r := s.links[(i, q)];
         var reqs := s.nodes[Target(s, i, q)].reqs;
         r < |reqs| && reqs[r].kind.PeerGet?
         && reqs[r].key == s.nodes[i].flights[s.nodes[i].races[q].flight].key
  }

  ghost predicate LinksOk(s: Fleet) {
    forall i: nat, q: nat :: LinkOk(s, i, q)
  }

  ghost predicate FleetInv(w: World, s: Fleet) {
    && |w.cfgs| == |s.nodes|
    && (forall i :: 0 <= i < |s.nodes| ==> Shape(w.cfgs[i], s.nodes[i]) && Truthful(w.truth, s.nodes[i]))
    && LinksOk(s)
  }

  /** Logs only grow, and what an entry is about never changes. */
  predicate Grows(n: Node, m: Node) {
    && |n.reqs| <= |m.reqs| && |n.flights| <= |m.flights| && |n.races| <= |m.races|
    && (forall r :: 0 <= r < |n.reqs| ==> m.reqs[r].kind == n.reqs[r].kind && m.reqs[r].key == n.reqs[r].key)
    && (forall f :: 0 <= f < |n.flights| ==> m.flights[f].key == n.flights[f].key)
    && (forall q :: 0 <= q < |n.races| ==>
          m.races[q].flight == n.races[q].flight && m.races[q].target == n.races[q].target)
  }

  lemma FreeSlotGrows(cfg: Config, n: Node)
    requires cfg.cap.Some? ==> 0 < n.used
    ensures Grows(n, FreeSlot(cfg, n))
  {
  }

  lemma RaceStepGrows(cfg: Config, n: Node, q: nat, rs: R.Step)
    requires q < |n.races| && RaceEnabled(cfg, n, q, rs)
    ensures Grows(n, AdvanceRace(cfg, n, q, rs))
  {
    var n1 := n.(races := n.races[q := n.races[q].(race := R.Apply(n.races[q].race, rs))],
                 c := n.c.(hedge := R.Book(n.c.hedge, n.races[q].race, rs)));
    assert Grows(n, n1);
    if rs.CdnRelease? {
      FreeSlotGrows(cfg, n1);
    }
  }

  lemma ReleaseGrows(cfg: Config, n: Node, f: nat)
    requires f < |n.flights| && n.flights[f].st.Releasing? && (cfg.cap.Some? ==> 0 < n.used)
    ensures Grows(n, FreeSlot(cfg, Finish(n, f, n.flights[f].st.result)))
  {
    FreeSlotGrows(cfg, Finish(n, f, n.flights[f].st.result));
  }

  lemma RequestStepGrows(cfg: Config, n: Node, step: Step)
    requires Enabled(cfg, n, step)
    requires step.Arrive? || step.ReadHit? || step.TouchHit? || step.ServeHit?
    ensures Grows(n, Apply(cfg, n, step))
  {
  }

  lemma MissGrows(n: Node, r: nat)
    requires r < |n.reqs|
    ensures Grows(n, Miss(n, r))
  {
  }

  lemma StartRaceGrows(n: Node, f: nat, target: PeerId, sticky: bool, issued: nat)
    requires f < |n.flights|
    ensures Grows(n, StartRace(n, f, target, sticky, issued))
  {
  }

  lemma SlotStepGrows(cfg: Config, n: Node, step: Step)
    requires Enabled(cfg, n, step) && (step.Acquire? || step.Cancel?)
    ensures Grows(n, Apply(cfg, n, step))
  {
  }

  lemma FetchStepGrows(cfg: Config, n: Node, step: Step)
    requires Enabled(cfg, n, step) && (step.Fetch? || step.RaceReturn?)
    ensures Grows(n, Apply(cfg, n, step))
  {
  }

  lemma WriteStepGrows(cfg: Config, n: Node, step: Step)
    requires Enabled(cfg, n, step) && (step.Write? || step.RecordStart? || step.EvictEnd?)
    ensures Grows(n, Apply(cfg, n, step))
  {
  }

  lemma AnswerStepGrows(cfg: Config, n: Node, step: Step)
    requires Enabled(cfg, n, step) && (step.Settle? || step.Wake?)
    ensures Grows(n, Apply(cfg, n, step))
  {
  }

  lemma StepGrows(cfg: Config, n: Node, step: Step)
    requires Enabled(cfg, n, step)
    ensures Grows(n, Apply(cfg, n, step))
  {
    match step
    case Arrive(_, _) => RequestStepGrows(cfg, n, step);
    case ReadHit(_) => RequestStepGrows(cfg, n, step);
    case ReadMiss(r) => MissGrows(n, r);
    case TouchHit(_) => RequestStepGrows(cfg, n, step);
    case ServeHit(_) => RequestStepGrows(cfg, n, step);
    case Decide(f, live) => if cfg.peers != [] && live { StartRaceGrows(n, f, n.sticky.value, true, 0); }
    case RaceStep(q, rs) => RaceStepGrows(cfg, n, q, rs);
    case RaceReturn(_) => FetchStepGrows(cfg, n, step);
    case Probe(f, found, _, issued) => if found.Some? { StartRaceGrows(n, f, found.value, false, issued); }
    case Acquire(_) => SlotStepGrows(cfg, n, step);
    case Cancel(_) => SlotStepGrows(cfg, n, step);
    case Fetch(_, _, _) => FetchStepGrows(cfg, n, step);
    case Write(_, _) => WriteStepGrows(cfg, n, step);
    case RecordStart(_) => WriteStepGrows(cfg, n, step);
    case EvictPop(_) =>
    case EvictDel =>
    case EvictEnd(_) => WriteStepGrows(cfg, n, step);
    case Settle(_) => AnswerStepGrows(cfg, n, step);
    case Release(f) => ReleaseGrows(cfg, n, f);
    case Wake(_) => AnswerStepGrows(cfg, n, step);
  }

  /** Links survive the growth of one node. */
  lemma LinksSurvive(s: Fleet, i: nat, m: Node)
    requires i < |s.nodes| && Grows(s.nodes[i], m)
    requires LinksOk(s)
    ensures LinksOk(s.(nodes := s.nodes[i := m]))
  {
    var s' := s.(nodes := s.nodes[i := m]);
    forall j: nat, q: nat ensures LinkOk(s', j, q) {
      assert LinkOk(s, j, q);
    }
  }

  lemma NodeMoves(w: World, s: Fleet, i: nat, step: Step)
    requires FleetInv(w, s) && i < |s.nodes| && Enabled(w.cfgs[i], s.nodes[i], step)
    requires TrueStep(w.truth, s.nodes[i], step)
    ensures FleetInv(w, s.(nodes := s.nodes[i := Apply(w.cfgs[i], s.nodes[i], step)]))
  {
    hide Truthful, Grows, LinksOk, Shape, Apply, TrueStep;
    StepKeepsShape(w.cfgs[i], s.nodes[i], step);
    StepKeepsTruth(w.truth, w.cfgs[i], s.nodes[i], step);
    StepGrows(w.cfgs[i], s.nodes[i], step);
    LinksSurvive(s, i, Apply(w.cfgs[i], s.nodes[i], step));
  }

  lemma DialKeeps(w: World, s: Fleet, i: nat, q: nat)
    requires FleetInv(w, s) && CanDo(w, s, Dial(i, q))
    ensures FleetInv(w, Do(w, s, Dial(i, q)))
  {
    hide Shape, Truthful, Grows;
    var j := Target(s, i, q);
    var key := s.nodes[i].flights[s.nodes[i].races[q].flight].key;
    var arrival := Arrive(PeerGet, key);
    var s1 := s.(nodes := s.nodes[j := Apply(w.cfgs[j], s.nodes[j], arrival)]);
    NodeMoves(w, s, j, arrival);
    var s2 := Do(w, s, Dial(i, q));
    assert s2.nodes == s1.nodes;
    forall a: nat, b: nat ensures LinkOk(s2, a, b) {
      assert LinkOk(s1, a, b);
    }
  }

  lemma DeliverKeeps(w: World, s: Fleet, i: nat, q: nat)
    requires FleetInv(w, s) && CanDo(w, s, Deliver(i, q))
    ensures FleetInv(w, Do(w, s, Deliver(i, q)))
  {
    assert LinkOk(s, i, q);
    var j := Target(s, i, q);
    assert Truthful(w.truth, s.nodes[j]);
    assert ReqTrue(w.truth, s.nodes[j].reqs[s.links[(i, q)]]);
    NodeMoves(w, s, i, RaceStep(q, Delivered(s, i, q)));
  }

  lemma MoveKeepsInv(w: World, s: Fleet, move: Move)
    requires FleetInv(w, s) && CanDo(w, s, move)
    ensures FleetInv(w, Do(w, s, move))
  {
    match move
    case Local(i, step) => NodeMoves(w, s, i, step);
    case Dial(i, q) => DialKeeps(w, s, i, q);
    case Deliver(i, q) => DeliverKeeps(w, s, i, q);
  }

  lemma {:induction false} FleetKeepsInv(w: World, first: Fleet, moves: seq<Move>, s: Fleet)
    requires FleetRun(w, first, moves, s)
    ensures FleetInv(w, s)
    decreases |moves|
  {
    if moves != [] {
      var before, last := moves[..|moves| - 1], moves[|moves| - 1];
      var m :| FleetRun(w, first, before, m) && CanDo(w, m, last) && s == Do(w, m, last);
      hide FleetInv, CanDo, Do;
      FleetKeepsInv(w, first, before, m);
      MoveKeepsInv(w, m, last);
    }
  }

  /** Byte integrity of the fleet: on every node, in every interleaving, each cached file and each 206 body is
      the CDN's body for its key. */
  lemma FleetByteIntegrity(w: World, first: Fleet, moves: seq<Move>, s: Fleet, i: nat)
    requires FleetRun(w, first, moves, s) && i < |s.nodes|
    ensures forall k :: k in s.nodes[i].disk ==> s.nodes[i].disk[k] == w.truth(k)
    ensures forall r :: 0 <= r < |s.nodes[i].reqs| && s.nodes[i].reqs[r].st.Served? ==>
              s.nodes[i].reqs[r].st.body == w.truth(s.nodes[i].reqs[r].key)
  {
    FleetKeepsInv(w, first, moves, s);
    assert Truthful(w.truth, s.nodes[i]);
    forall r | 0 <= r < |s.nodes[i].reqs| && s.nodes[i].reqs[r].st.Served?
      ensures s.nodes[i].reqs[r].st.body == w.truth(s.nodes[i].reqs[r].key)
    {
      assert ReqTrue(w.truth, s.nodes[i].reqs[r]);
    }
  }
}
