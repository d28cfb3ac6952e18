/** What a race leaves behind in a flight that goes on without it (shim-go/peer_hedge.go:96-129,
    shim-go/peer_fetch.go:27-48): nothing that runs, and so no fetch slot. */
module NodeLosers {
  import R = Race
  import opened Node
  import opened NodeShape

  /** The flight has no body yet. */
  predicate Searching(st: FlightState) {
    st.Deciding? || st.InRace? || st.Probing? || st.PlainStart? || st.Queued? || st.Holding?
  }

  predicate Lost(race: R.Race) { race.main.Returned? && !race.main.ok }

  /** A race of a flight that still searches is the one it is in, or was lost. */
  ghost predicate LoserOk(n: Node, q: nat)
    requires q < |n.races|
  {
    n.races[q].flight < |n.flights| &&
    var st := n.flights[n.races[q].flight].st;
    Searching(st) && !(st.InRace? && st.race == q) ==> Lost(n.races[q].race)
  }

  ghost predicate LosersOk(n: Node) {
    forall q: nat :: q < |n.races| ==> LoserOk(n, q)
  }

  /** A race given up has no CDN goroutine at work: it never started one, or has had its answer. */
  lemma LostHoldsNothing(r: R.Race)
    requires R.Inv(r) && Lost(r)
    ensures R.Holds(r) == 0
  {
  }

  // ---- one lemma per kind of change ----

  lemma SameRacesKeep(n: Node, m: Node)
    requires LosersOk(n) && m.races == n.races && m.flights == n.flights
    ensures LosersOk(m)
  {
    forall q: nat | q < |m.races| ensures LoserOk(m, q) {
      assert LoserOk(n, q);
    }
  }

  /** One flight moves: it may stop searching at any time, and goes on searching only from outside a race. */
  lemma FlightGoesOn(n: Node, m: Node, f: nat)
    requires LosersOk(n) && m.races == n.races && f < |n.flights| == |m.flights|
    requires m.flights == n.flights[f := m.flights[f]]
    requires Searching(m.flights[f].st) ==>
               Searching(n.flights[f].st) && !n.flights[f].st.InRace? && !m.flights[f].st.InRace?
    ensures LosersOk(m)
  {
    forall q: nat | q < |m.races| ensures LoserOk(m, q) {
      assert LoserOk(n, q);
    }
  }

  lemma RaceIsLeft(n: Node, f: nat)
    requires LosersOk(n) && RaceOver(n, f)
    ensures LosersOk(LeaveRace(n, f))
  {
    var m := LeaveRace(n, f);
    forall q: nat | q < |m.races| ensures LoserOk(m, q) {
      assert LoserOk(n, q);
    }
  }

  lemma RaceBegins(n: Node, f: nat, target: PeerId, sticky: bool, issued: nat)
    requires LosersOk(n) && f < |n.flights| && (n.flights[f].st.Deciding? || n.flights[f].st.Probing?)
    ensures LosersOk(StartRace(n, f, target, sticky, issued))
  {
    var m := StartRace(n, f, target, sticky, issued);
    forall q: nat | q < |m.races| ensures LoserOk(m, q) {
      if q < |n.races| {
        assert LoserOk(n, q);
      }
    }
  }

  lemma LeadKeepsLosers(n: Node, r: nat)
    requires LosersOk(n) && r < |n.reqs|
    ensures LosersOk(Miss(n, r))
  {
    var m := Miss(n, r);
    forall q: nat | q < |m.races| ensures LoserOk(m, q) {
      assert LoserOk(n, q);
    }
  }

  lemma ReturnedStays(r: R.Race, rs: R.Step)
    requires r.main.Returned? && R.Enabled(r, rs)
    ensures R.Apply(r, rs).main == r.main
  {
  }

  lemma SlotPassesOn(cfg: Config, n: Node)
    requires LosersOk(n) && QueueOk(cfg, n) && (cfg.cap.Some? ==> 0 < n.used)
    ensures LosersOk(FreeSlot(cfg, n))
  {
    if cfg.cap.Some? && n.queue != [] {
      assert n.queue[0] in n.queue;
      FlightGoesOn(n, FreeSlot(cfg, n), n.queue[0]);
    } else {
      SameRacesKeep(n, FreeSlot(cfg, n));
    }
  }

  lemma RaceGoesOn(cfg: Config, n: Node, q: nat, rs: R.Step)
    requires LosersOk(n) && QueueOk(cfg, n) && q < |n.races| && RaceEnabled(cfg, n, q, rs)
    ensures LosersOk(AdvanceRace(cfg, n, q, rs))
  {
    var n1 := n.(races := n.races[q := n.races[q].(race := R.Apply(n.races[q].race, rs))],
                 c := n.c.(hedge := R.Book(n.c.hedge, n.races[q].race, rs)));
    forall p: nat | p < |n1.races| ensures LoserOk(n1, p) {
      assert LoserOk(n, p);
      if p == q && Lost(n.races[q].race) {
        ReturnedStays(n.races[q].race, rs);
      }
    }
    if rs.CdnRelease? {
      SlotPassesOn(cfg, n1);
    } else {
      SameRacesKeep(n1, AdvanceRace(cfg, n, q, rs));
    }
  }

  lemma FlightStepKeepsLosers(cfg: Config, n: Node, step: Step)
    requires LosersOk(n) && Enabled(cfg, n, step) && (step.Acquire? || step.Cancel? || step.Fetch? || step.Write?)
    ensures LosersOk(Apply(cfg, n, step))
  {
    hide LosersOk;
    FlightGoesOn(n, Apply(cfg, n, step), step.f);
  }

  lemma StepKeepsLosers(cfg: Config, n: Node, step: Step)
    requires Shape(cfg, n) && LosersOk(n) && Enabled(cfg, n, step)
    ensures LosersOk(Apply(cfg, n, step))
  {
    hide LosersOk, Miss, AdvanceRace, FreeSlot, LeaveRace, RaceEnabled, ReqsOk, LeadersOk, SingleFlight, RacesOk,
         LockOk, QueueOk;
    var m := Apply(cfg, n, step);
    match step
    case Arrive(_, _) => SameRacesKeep(n, m);
    case ReadHit(_) => SameRacesKeep(n, m);
    case ReadMiss(r) => LeadKeepsLosers(n, r);
    case TouchHit(_) => SameRacesKeep(n, m);
    case ServeHit(_) => SameRacesKeep(n, m);
    case Decide(f, live) =>
      if cfg.peers != [] && live {
        RaceBegins(n, f, n.sticky.value, true, 0);
      } else {
        FlightGoesOn(n, m, f);
      }
    case RaceStep(q, rs) => RaceGoesOn(cfg, n, q, rs);
    case RaceReturn(f) => RaceIsLeft(n, f);
    case Probe(f, found, _, issued) =>
      if found.Some? {
        RaceBegins(n, f, found.value, false, issued);
      } else {
        FlightGoesOn(n, m, f);
      }
    case Acquire(_) => FlightStepKeepsLosers(cfg, n, step);
    case Cancel(_) => FlightStepKeepsLosers(cfg, n, step);
    case Fetch(_, _, _) => FlightStepKeepsLosers(cfg, n, step);
    case Write(_, _) => FlightStepKeepsLosers(cfg, n, step);
    case RecordStart(f) => FlightGoesOn(n, m, f);
    case EvictPop(_) => SameRacesKeep(n, m);
    case EvictDel => SameRacesKeep(n, m);
    case EvictEnd(_) => FlightGoesOn(n, m, n.lock.flight);
    case Settle(f) => FlightGoesOn(n, m, f);
    case Release(f) => ReleaseKeepsLosers(cfg, n, f);
    case Wake(r) => FlightGoesOn(n, m, n.reqs[r].st.flight);
  }

  lemma ReleaseKeepsLosers(cfg: Config, n: Node, f: nat)
    requires QueueOk(cfg, n) && LosersOk(n) && Enabled(cfg, n, Release(f))
    ensures LosersOk(Apply(cfg, n, Release(f)))
  {
    var ended := Finish(n, f, n.flights[f].st.result);
    FlightGoesOn(n, ended, f);
    forall g: nat ensures g in ended.queue <==> g < |ended.flights| && ended.flights[g].st.Queued? {
    }
    SlotPassesOn(cfg, ended);
  }

  lemma {:induction false} RunKeepsLosers(cfg: Config, first: Node, steps: seq<Step>, n: Node)
    requires Run(cfg, first, steps, n)
    ensures Shape(cfg, n) && LosersOk(n)
    decreases |steps|
  {
    if steps != [] {
      var before, last := steps[..|steps| - 1], steps[|steps| - 1];
      var m :| Run(cfg, first, before, m) && Enabled(cfg, m, last) && n == Apply(cfg, m, last);
      hide LosersOk, Apply, Enabled, Shape;
      RunKeepsLosers(cfg, first, before, m);
      StepKeepsShape(cfg, m, last);
      StepKeepsLosers(cfg, m, last);
    }
  }

  /** A flight that still searches, and is in no race, has nothing at work for it that holds a slot. */
  lemma SearchHoldsNothing(cfg: Config, first: Node, steps: seq<Step>, n: Node, q: nat)
    requires Run(cfg, first, steps, n) && q < |n.races|
    ensures n.races[q].flight < |n.flights|
    ensures Searching(n.flights[n.races[q].flight].st) && !n.flights[n.races[q].flight].st.InRace? ==>
              R.Holds(n.races[q].race) == 0
  {
    RunKeepsLosers(cfg, first, steps, n);
    assert LoserOk(n, q);
    if Lost(n.races[q].race) {
      LostHoldsNothing(n.races[q].race);
    }
  }
}
