/** How much outbound work one flight can cause (shim-go/peer_fetch.go:14-109, shim-go/peer_hedge.go:56-130,
    shim-go/xorb.go:117-176). */
module NodeWork {
  import opened Types
  import R = Race
  import opened Node
  import opened NodeShape

  /** CDN GETs of one race: none before its hedge fetches, at most one per candidate url after. */
  predicate RaceWork(cfg: Config, race: R.Race) {
    race.gets <= cfg.candidates
    && (race.cdn.CdnIdle? || race.cdn.CdnStarting? || race.cdn.CdnHolding? ==> race.gets == 0)
  }

  /** What a flight may have issued by each point of its life. */
  predicate FlightWork(cfg: Config, fl: Flight) {
    && |fl.races| <= 2 && fl.heads <= |cfg.peers| && fl.gets <= cfg.candidates
    && match fl.st {
         case Deciding => fl.races == [] && fl.heads == 0 && fl.gets == 0
         case InRace(_, sticky) => fl.gets == 0 && (sticky ==> |fl.races| == 1 && fl.heads == 0)
         case Probing => |fl.races| <= 1 && fl.heads == 0 && fl.gets == 0
         case PlainStart => fl.gets == 0
         case Queued => fl.gets == 0
         case Holding => fl.gets == 0
         case _ => true
       }
  }

  ghost predicate WorkInv(cfg: Config, n: Node) {
    && (forall q :: 0 <= q < |n.races| ==> RaceWork(cfg, n.races[q].race))
    && (forall f :: 0 <= f < |n.flights| ==> FlightWork(cfg, n.flights[f]))
  }

  /** The race log and the flights' own lists agree. */
  ghost predicate RaceLists(n: Node) {
    && (forall q :: 0 <= q < |n.races| ==> n.races[q].flight < |n.flights| && q in n.flights[n.races[q].flight].races)
    && (forall f: nat, i: nat :: f < |n.flights| && i < |n.flights[f].races| ==>
          n.flights[f].races[i] < |n.races| && n.races[n.flights[f].races[i]].flight == f)
  }

  lemma FlightAdvances(cfg: Config, n: Node, m: Node, f: nat)
    requires WorkInv(cfg, n) && RaceLists(n) && f < |n.flights| == |m.flights|
    requires m.flights == n.flights[f := m.flights[f]] && m.races == n.races
    requires m.flights[f].races == n.flights[f].races
    requires FlightWork(cfg, n.flights[f]) ==> FlightWork(cfg, m.flights[f])
    ensures WorkInv(cfg, m) && RaceLists(m)
  {
  }

  lemma RaceStartsWork(cfg: Config, n: Node, f: nat, target: PeerId, sticky: bool, issued: nat)
    requires WorkInv(cfg, n) && RaceLists(n) && f < |n.flights| && issued <= |cfg.peers|
    requires if sticky then n.flights[f].st.Deciding? && issued == 0 else n.flights[f].st.Probing?
    ensures WorkInv(cfg, StartRace(n, f, target, sticky, issued)) && RaceLists(StartRace(n, f, target, sticky, issued))
  {
    var m := StartRace(n, f, target, sticky, issued);
    assert FlightWork(cfg, m.flights[f]);
    forall q | 0 <= q < |m.races| ensures m.races[q].flight < |m.flights| && q in m.flights[m.races[q].flight].races {
      if q < |n.races| {
        assert q in n.flights[n.races[q].flight].races;
      }
    }
  }

  lemma LeadStartsWork(cfg: Config, n: Node, r: nat)
    requires WorkInv(cfg, n) && RaceLists(n) && r < |n.reqs|
    ensures WorkInv(cfg, Miss(n, r)) && RaceLists(Miss(n, r))
  {
    var m := Miss(n, r);
    forall f | 0 <= f < |m.flights| ensures FlightWork(cfg, m.flights[f]) {
    }
  }

  lemma SlotPassesWork(cfg: Config, n: Node)
    requires QueueOk(cfg, n) && WorkInv(cfg, n) && RaceLists(n) && (cfg.cap.Some? ==> 0 < n.used)
    ensures WorkInv(cfg, FreeSlot(cfg, n)) && RaceLists(FreeSlot(cfg, n))
  {
    if cfg.cap.Some? && n.queue != [] {
      assert n.queue[0] in n.queue;
      FlightAdvances(cfg, n, FreeSlot(cfg, n), n.queue[0]);
    }
  }

  lemma RaceAdvancesWork(cfg: Config, n: Node, q: nat, rs: R.Step)
    requires Shape(cfg, n) && WorkInv(cfg, n) && RaceLists(n) && q < |n.races| && RaceEnabled(cfg, n, q, rs)
    ensures WorkInv(cfg, AdvanceRace(cfg, n, q, rs)) && RaceLists(AdvanceRace(cfg, n, q, rs))
  {
    assert RaceWork(cfg, R.Apply(n.races[q].race, rs));
    var n1 := n.(races := n.races[q := n.races[q].(race := R.Apply(n.races[q].race, rs))],
                 c := n.c.(hedge := R.Book(n.c.hedge, n.races[q].race, rs)));
    assert WorkInv(cfg, n1) && RaceLists(n1);
    if rs.CdnRelease? {
      SlotPassesWork(cfg, n1);
    }
  }

  lemma ReleaseKeepsWork(cfg: Config, n: Node, f: nat)
    requires Shape(cfg, n) && WorkInv(cfg, n) && RaceLists(n) && Enabled(cfg, n, Release(f))
    ensures WorkInv(cfg, Apply(cfg, n, Release(f))) && RaceLists(Apply(cfg, n, Release(f)))
  {
    var result := n.flights[f].st.result;
    FlightAdvances(cfg, n, Finish(n, f, result), f);
    FlightFinishes(cfg, n, f, result);
    SlotPassesWork(cfg, Finish(n, f, result));
  }

  lemma AnswerKeepsWork(cfg: Config, n: Node, r: nat)
    requires WorkInv(cfg, n) && RaceLists(n) && Enabled(cfg, n, Wake(r))
    ensures WorkInv(cfg, Answer(n, r)) && RaceLists(Answer(n, r))
  {
    FlightAdvances(cfg, n, Answer(n, r), n.reqs[r].st.flight);
  }

  lemma QuietStepKeepsWork(cfg: Config, n: Node, step: Step)
    requires WorkInv(cfg, n) && RaceLists(n) && Enabled(cfg, n, step)
    requires step.Arrive? || step.ReadHit? || step.TouchHit? || step.ServeHit? || step.EvictPop? || step.EvictDel?
    ensures WorkInv(cfg, Apply(cfg, n, step)) && RaceLists(Apply(cfg, n, step))
  {
  }

  lemma ReturnKeepsWork(cfg: Config, n: Node, step: Step)
    requires WorkInv(cfg, n) && RaceLists(n) && Enabled(cfg, n, step) && step.RaceReturn?
    ensures WorkInv(cfg, Apply(cfg, n, step)) && RaceLists(Apply(cfg, n, step))
  {
    hide WorkInv, RaceLists;
    FlightAdvances(cfg, n, Apply(cfg, n, step), step.f);
  }

  lemma SlotStepKeepsWork(cfg: Config, n: Node, step: Step)
    requires WorkInv(cfg, n) && RaceLists(n) && Enabled(cfg, n, step) && (step.Acquire? || step.Cancel?)
    ensures WorkInv(cfg, Apply(cfg, n, step)) && RaceLists(Apply(cfg, n, step))
  {
    hide WorkInv, RaceLists;
    FlightAdvances(cfg, n, Apply(cfg, n, step), step.f);
  }

  lemma FetchKeepsWork(cfg: Config, n: Node, step: Step)
    requires WorkInv(cfg, n) && RaceLists(n) && Enabled(cfg, n, step) && step.Fetch?
    ensures WorkInv(cfg, Apply(cfg, n, step)) && RaceLists(Apply(cfg, n, step))
  {
    hide WorkInv, RaceLists;
    FlightAdvances(cfg, n, Apply(cfg, n, step), step.f);
  }

  lemma WriteKeepsWork(cfg: Config, n: Node, step: Step)
    requires WorkInv(cfg, n) && RaceLists(n) && Enabled(cfg, n, step) && step.Write?
    ensures WorkInv(cfg, Apply(cfg, n, step)) && RaceLists(Apply(cfg, n, step))
  {
    hide WorkInv, RaceLists;
    FlightAdvances(cfg, n, Apply(cfg, n, step), step.f);
  }

  lemma SettleKeepsWork(cfg: Config, n: Node, step: Step)
    requires WorkInv(cfg, n) && RaceLists(n) && Enabled(cfg, n, step) && step.Settle?
    ensures WorkInv(cfg, Apply(cfg, n, step)) && RaceLists(Apply(cfg, n, step))
  {
    hide WorkInv, RaceLists;
    FlightAdvances(cfg, n, Apply(cfg, n, step), step.f);
  }

  lemma SearchStepKeepsWork(cfg: Config, n: Node, step: Step)
    requires WorkInv(cfg, n) && RaceLists(n) && Enabled(cfg, n, step) && (step.Decide? || step.Probe?)
    ensures WorkInv(cfg, Apply(cfg, n, step)) && RaceLists(Apply(cfg, n, step))
  {
    hide WorkInv, RaceLists;
    if step.Decide? && cfg.peers != [] && step.live {
      RaceStartsWork(cfg, n, step.f, n.sticky.value, true, 0);
    } else if step.Probe? && step.found.Some? {
      RaceStartsWork(cfg, n, step.f, step.found.value, false, step.issued);
    } else {
      FlightAdvances(cfg, n, Apply(cfg, n, step), step.f);
    }
  }

  lemma StepKeepsWork(cfg: Config, n: Node, step: Step)
    requires Shape(cfg, n) && WorkInv(cfg, n) && RaceLists(n) && Enabled(cfg, n, step)
    ensures WorkInv(cfg, Apply(cfg, n, step)) && RaceLists(Apply(cfg, n, step))
  {
    hide WorkInv, RaceLists, StartRace, Miss, AdvanceRace, FreeSlot, Answer, RaceEnabled, Shape;
    match step
    case Arrive(_, _) => QuietStepKeepsWork(cfg, n, step);
    case ReadHit(_) => QuietStepKeepsWork(cfg, n, step);
    case ReadMiss(r) => LeadStartsWork(cfg, n, r);
    case TouchHit(_) => QuietStepKeepsWork(cfg, n, step);
    case ServeHit(_) => QuietStepKeepsWork(cfg, n, step);
    case Decide(_, _) => SearchStepKeepsWork(cfg, n, step);
    case RaceStep(q, rs) => RaceAdvancesWork(cfg, n, q, rs);
    case RaceReturn(_) => ReturnKeepsWork(cfg, n, step);
    case Probe(_, _, _, _) => SearchStepKeepsWork(cfg, n, step);
    case Acquire(_) => SlotStepKeepsWork(cfg, n, step);
    case Cancel(_) => SlotStepKeepsWork(cfg, n, step);
    case Fetch(_, _, _) => FetchKeepsWork(cfg, n, step);
    case Write(_, _) => WriteKeepsWork(cfg, n, step);
    case RecordStart(f) => FlightAdvances(cfg, n, Apply(cfg, n, step), f);
    case EvictPop(_) => QuietStepKeepsWork(cfg, n, step);
    case EvictDel => QuietStepKeepsWork(cfg, n, step);
    case EvictEnd(_) => FlightAdvances(cfg, n, Apply(cfg, n, step), n.lock.flight);
    case Settle(_) => SettleKeepsWork(cfg, n, step);
    case Release(f) => ReleaseKeepsWork(cfg, n, f);
    case Wake(r) => AnswerKeepsWork(cfg, n, r);
  }

  lemma {:induction false} RunKeepsWork(cfg: Config, first: Node, steps: seq<Step>, n: Node)
    requires Run(cfg, first, steps, n)
    ensures Shape(cfg, n) && WorkInv(cfg, n) && RaceLists(n)
    decreases |steps|
  {
    if steps != [] {
      var before, last := steps[..|steps| - 1], steps[|steps| - 1];
      var m :| Run(cfg, first, before, m) && Enabled(cfg, m, last) && n == Apply(cfg, m, last);
      RunKeepsWork(cfg, first, before, m);
      StepKeepsShape(cfg, m, last);
      StepKeepsWork(cfg, m, last);
    }
  }

  /** CDN GETs issued by the listed races. */
  ghost function RaceGets(n: Node, qs: seq<nat>): nat
    requires forall i :: 0 <= i < |qs| ==> qs[i] < |n.races|
  {
    if qs == [] then 0 else n.races[qs[0]].race.gets + RaceGets(n, qs[1..])
  }

  lemma {:induction false} RaceGetsBound(cfg: Config, n: Node, qs: seq<nat>)
    requires WorkInv(cfg, n) && forall i :: 0 <= i < |qs| ==> qs[i] < |n.races|
    ensures RaceGets(n, qs) <= |qs| * cfg.candidates
  {
    if qs != [] {
      RaceGetsBound(cfg, n, qs[1..]);
      assert |qs| * cfg.candidates == cfg.candidates + |qs[1..]| * cfg.candidates;
    }
  }

  /** Each flight issues at most one HEAD per peer, starts at most two races (one peer GET each) and issues at
      most three times signedCandidates CDN GETs; the races in its list are exactly those started for it;
      and no two unfinished flights share a key. */
  lemma BoundedWork(cfg: Config, first: Node, steps: seq<Step>, n: Node, f: nat)
    requires Run(cfg, first, steps, n) && f < |n.flights|
    ensures n.flights[f].heads <= |cfg.peers| && |n.flights[f].races| <= 2
    ensures forall i :: 0 <= i < |n.flights[f].races| ==>
              n.flights[f].races[i] < |n.races| && n.races[n.flights[f].races[i]].flight == f
    ensures forall q :: 0 <= q < |n.races| && n.races[q].flight == f ==> q in n.flights[f].races
    ensures n.flights[f].gets + RaceGets(n, n.flights[f].races) <= 3 * cfg.candidates
    ensures forall g :: 0 <= g < |n.flights| && g != f && n.flights[g].key == n.flights[f].key ==>
              n.flights[f].st.Finished? || n.flights[g].st.Finished?
  {
    RunKeepsWork(cfg, first, steps, n);
    assert FlightWork(cfg, n.flights[f]);
    CdnGetsBound(cfg, n, f);
  }

  lemma CdnGetsBound(cfg: Config, n: Node, f: nat)
    requires WorkInv(cfg, n) && RaceLists(n) && f < |n.flights|
    ensures n.flights[f].gets + RaceGets(n, n.flights[f].races) <= 3 * cfg.candidates
  {
    assert FlightWork(cfg, n.flights[f]);
    RaceGetsBound(cfg, n, n.flights[f].races);
    TimesMonotone(|n.flights[f].races|, 2, cfg.candidates);
  }

  lemma TimesMonotone(a: nat, b: nat, c: nat)
    requires a <= b
    ensures a * c <= b * c
  {
  }
}
