// How requests, flights, races and the LRU lock refer to each other in every reachable state of a node.
module NodeShape {
  import opened Types
  import opened Seqs
  import opened LruSpec
  import R = Race
  import opened Node

  ghost predicate ReqsOk(n: Node) {
    forall r :: 0 <= r < |n.reqs| && n.reqs[r].st.Waiting? ==>
      n.reqs[r].kind.ClientGet? && n.reqs[r].st.flight < |n.flights|
      && n.flights[n.reqs[r].st.flight].key == n.reqs[r].key
  }

  /** A flight is led by a request that waits on it until the request is answered, which is recorded. */
  ghost predicate LeadersOk(n: Node) {
    forall f :: 0 <= f < |n.flights| ==>
      var fl := n.flights[f];
      fl.leader < |n.reqs|
      && (if fl.paid then fl.st.Finished? && !Unfinished(n.reqs[fl.leader].st) else n.reqs[fl.leader].st == Waiting(f))
  }

  /** The singleflight map holds exactly the unfinished flights, so there is one per key at most. */
  ghost predicate SingleFlight(n: Node) {
    && (forall k :: k in n.sf ==>
          n.sf[k] < |n.flights| && n.flights[n.sf[k]].key == k && !n.flights[n.sf[k]].st.Finished?)
    && (forall f :: 0 <= f < |n.flights| && !n.flights[f].st.Finished? ==>
          n.flights[f].key in n.sf && n.sf[n.flights[f].key] == f)
  }

  ghost predicate RacesOk(n: Node) {
    && (forall q :: 0 <= q < |n.races| ==> R.Inv(n.races[q].race) && n.races[q].flight < |n.flights|)
    && (forall f :: 0 <= f < |n.flights| && n.flights[f].st.InRace? ==>
          n.flights[f].st.race < |n.races| && n.races[n.flights[f].st.race].flight == f)
  }

  /** lru.mu is held exactly by the flight that is recording. */
  ghost predicate LockOk(n: Node) {
    && (n.lock.Busy? ==> n.lock.flight < |n.flights| && n.flights[n.lock.flight].st.Recording?)
    && (forall f :: 0 <= f < |n.flights| && n.flights[f].st.Recording? ==> n.lock.Busy? && n.lock.flight == f)
  }

  ghost predicate QueueOk(cfg: Config, n: Node) {
    && (forall f: nat :: f in n.queue <==> f < |n.flights| && n.flights[f].st.Queued?)
    && NoRepeats(n.queue)
    && (cfg.cap.None? ==> n.queue == [])
  }

  ghost predicate Shape(cfg: Config, n: Node) {
    ReqsOk(n) && LeadersOk(n) && SingleFlight(n) && RacesOk(n) && LockOk(n) && QueueOk(cfg, n)
  }

  // ---- one lemma per kind of change ----

  /** m differs from n at most in parts Shape does not read. */
  predicate SameShape(n: Node, m: Node) {
    m.reqs == n.reqs && m.flights == n.flights && m.sf == n.sf && m.races == n.races && m.lock == n.lock
    && m.queue == n.queue
  }

  lemma SameKeeps(cfg: Config, n: Node, m: Node)
    requires Shape(cfg, n) && SameShape(n, m)
    ensures Shape(cfg, m)
  {
  }

  lemma RequestMoves(cfg: Config, n: Node, r: nat, st: ReqState)
    requires Shape(cfg, n) && r < |n.reqs| && Unfinished(n.reqs[r].st) && !n.reqs[r].st.Waiting? && !st.Waiting?
    ensures Shape(cfg, SetReq(n, r, st))
  {
  }

  lemma RequestArrives(cfg: Config, n: Node, q: Request)
    requires Shape(cfg, n) && !q.st.Waiting?
    ensures Shape(cfg, n.(reqs := n.reqs + [q]))
  {
  }

  lemma RequestJoins(cfg: Config, n: Node, r: nat)
    requires Shape(cfg, n) && r < |n.reqs| && n.reqs[r].st.Arrived? && n.reqs[r].kind.ClientGet?
    requires n.reqs[r].key in n.sf
    ensures Shape(cfg, SetReq(n, r, Waiting(n.sf[n.reqs[r].key])))
  {
  }

  lemma LeadMapped(cfg: Config, n: Node, r: nat)
    requires SingleFlight(n) && r < |n.reqs| && n.reqs[r].key !in n.sf
    ensures SingleFlight(Miss(n, r))
  {
    assert Miss(n, r).flights[..|n.flights|] == n.flights;
  }

  lemma RequestLeads(cfg: Config, n: Node, r: nat)
    requires Shape(cfg, n) && r < |n.reqs| && n.reqs[r].st.Arrived? && n.reqs[r].kind.ClientGet?
    requires n.reqs[r].key !in n.sf
    ensures Shape(cfg, Miss(n, r))
  {
    hide SingleFlight;
    var m := Miss(n, r);
    assert m.flights[..|n.flights|] == n.flights;
    LeadMapped(cfg, n, r);
    assert ReqsOk(m) && LeadersOk(m) && RacesOk(m) && LockOk(m) && QueueOk(cfg, m);
  }

  /** A flight moves between states that hold no lock, sit in no queue and are not final. */
  predicate Quiet(st: FlightState) { !st.Finished? && !st.Recording? && !st.Queued? }

  lemma FlightMoves(cfg: Config, n: Node, f: nat, fl: Flight)
    requires Shape(cfg, n) && f < |n.flights| && Quiet(n.flights[f].st) && Quiet(fl.st) && !fl.st.InRace?
    requires fl.key == n.flights[f].key && fl.leader == n.flights[f].leader && fl.paid == n.flights[f].paid
    ensures Shape(cfg, n.(flights := n.flights[f := fl]))
  {
  }

  lemma RaceIsLinked(n: Node, f: nat, target: PeerId, sticky: bool, issued: nat)
    requires RacesOk(n) && f < |n.flights|
    ensures RacesOk(StartRace(n, f, target, sticky, issued))
  {
  }

  lemma RaceStarts(cfg: Config, n: Node, f: nat, target: PeerId, sticky: bool, issued: nat)
    requires Shape(cfg, n) && f < |n.flights| && Quiet(n.flights[f].st)
    ensures Shape(cfg, StartRace(n, f, target, sticky, issued))
  {
    hide RacesOk;
    RaceIsLinked(n, f, target, sticky, issued);
  }

  lemma EndUnmaps(n: Node, f: nat, result: Result, queue: seq<nat>)
    requires SingleFlight(n) && f < |n.flights| && !n.flights[f].st.Finished?
    ensures SingleFlight(Finish(n, f, result).(queue := queue))
  {
  }

  /** A flight that holds no lock ends, whoever is left in the queue. */
  lemma FlightEnds(cfg: Config, n: Node, f: nat, result: Result, queue: seq<nat>)
    requires Shape(cfg, n) && f < |n.flights| && !n.flights[f].st.Finished? && !n.flights[f].st.Recording?
    ensures var m := Finish(n, f, result).(queue := queue);
            ReqsOk(m) && LeadersOk(m) && SingleFlight(m) && RacesOk(m) && LockOk(m)
  {
    hide QueueOk, NoRepeats, SingleFlight;
    EndUnmaps(n, f, result, queue);
  }

  lemma FlightFinishes(cfg: Config, n: Node, f: nat, result: Result)
    requires Shape(cfg, n) && f < |n.flights| && Quiet(n.flights[f].st)
    ensures Shape(cfg, Finish(n, f, result))
  {
    hide ReqsOk, LeadersOk, SingleFlight, RacesOk, LockOk;
    FlightEnds(cfg, n, f, result, n.queue);
    assert Finish(n, f, result).(queue := n.queue) == Finish(n, f, result);
  }

  /** The head of the queue takes the slot over. */
  lemma QueuePops(cfg: Config, n: Node)
    requires QueueOk(cfg, n) && n.queue != []
    ensures n.queue[0] < |n.flights| && n.flights[n.queue[0]].st.Queued?
    ensures QueueOk(cfg, SetFlight(n, n.queue[0], Holding).(queue := n.queue[1..]))
  {
    var f, rest := n.queue[0], n.queue[1..];
    assert f in n.queue;
    assert n.queue == [f] + rest;
    assert f !in rest && NoRepeats(rest);
    var m := SetFlight(n, f, Holding).(queue := rest);
    forall g: nat ensures g in rest <==> g < |m.flights| && m.flights[g].st.Queued? {
      assert g in n.queue <==> g == f || g in rest;
    }
  }

  lemma QueueAdvances(cfg: Config, n: Node)
    requires Shape(cfg, n) && n.queue != []
    ensures n.queue[0] < |n.flights|
    ensures Shape(cfg, SetFlight(n, n.queue[0], Holding).(queue := n.queue[1..]))
  {
    hide QueueOk, NoRepeats;
    QueuePops(cfg, n);
  }

  lemma SlotPasses(cfg: Config, n: Node)
    requires Shape(cfg, n) && (cfg.cap.Some? ==> 0 < n.used)
    ensures Shape(cfg, FreeSlot(cfg, n))
  {
    if cfg.cap.Some? {
      if n.queue != [] {
        QueueAdvances(cfg, n);
      } else {
        SameKeeps(cfg, n, n.(used := n.used - 1));
      }
    }
  }

  lemma QueueGrows(cfg: Config, n: Node, f: nat)
    requires QueueOk(cfg, n) && f < |n.flights| && n.flights[f].st.PlainStart? && cfg.cap.Some?
    ensures QueueOk(cfg, SetFlight(n, f, Queued).(queue := n.queue + [f]))
  {
  }

  lemma FlightQueues(cfg: Config, n: Node, f: nat)
    requires Shape(cfg, n) && f < |n.flights| && n.flights[f].st.PlainStart? && cfg.cap.Some?
    ensures Shape(cfg, SetFlight(n, f, Queued).(queue := n.queue + [f]))
  {
    hide QueueOk;
    QueueGrows(cfg, n, f);
  }

  lemma QueueForgets(cfg: Config, n: Node, f: nat)
    requires QueueOk(cfg, n) && f < |n.flights|
    ensures QueueOk(cfg, Finish(n, f, Err(503)).(queue := Removed(n.queue, f)))
  {
    RemovedMembers(n.queue, f);
    RemovedNoRepeats(n.queue, f);
  }

  lemma FlightCancels(cfg: Config, n: Node, f: nat)
    requires Shape(cfg, n) && f < |n.flights| && (n.flights[f].st.PlainStart? || n.flights[f].st.Queued?)
    requires cfg.cap.Some?
    ensures Shape(cfg, Finish(n, f, Err(503)).(queue := Removed(n.queue, f)))
  {
    hide ReqsOk, LeadersOk, SingleFlight, RacesOk, LockOk;
    FlightEnds(cfg, n, f, Err(503), Removed(n.queue, f));
    QueueForgets(cfg, n, f);
  }

  lemma LockTaken(n: Node, f: nat, lru: seq<Entry<Key>>)
    requires LockOk(n) && f < |n.flights| && n.flights[f].st.Written? && n.lock.Free?
    ensures var st := n.flights[f].st;
            LockOk(SetFlight(n, f, Recording(st.body, st.via)).(lru := lru, lock := Busy(f, None)))
  {
  }

  lemma RecordStarts(cfg: Config, n: Node, f: nat, lru: seq<Entry<Key>>)
    requires Shape(cfg, n) && f < |n.flights| && n.flights[f].st.Written? && n.lock.Free?
    ensures var st := n.flights[f].st;
            Shape(cfg, SetFlight(n, f, Recording(st.body, st.via)).(lru := lru, lock := Busy(f, None)))
  {
    hide LockOk;
    LockTaken(n, f, lru);
  }

  lemma EvictionMoves(cfg: Config, n: Node, m: Node)
    requires Shape(cfg, n) && n.lock.Busy? && m.lock.Busy? && m.lock.flight == n.lock.flight
    requires SameShape(n, m.(lock := n.lock))
    ensures Shape(cfg, m)
  {
  }

  lemma LockReturned(n: Node)
    requires LockOk(n) && n.lock.Busy?
    ensures var st := n.flights[n.lock.flight].st;
            LockOk(SetFlight(n, n.lock.flight, Recorded(st.body, st.via)).(lock := Free))
  {
  }

  lemma RecordEnds(cfg: Config, n: Node)
    requires Shape(cfg, n) && n.lock.Busy?
    ensures var st := n.flights[n.lock.flight].st;
            Shape(cfg, SetFlight(n, n.lock.flight, Recorded(st.body, st.via)).(lock := Free))
  {
    LockReturned(n);
    assert n.lock.flight < |n.flights| && n.flights[n.lock.flight].st.Recording?;
    hide LockOk;
  }

  lemma RaceAdvances(cfg: Config, n: Node, q: nat, rs: R.Step)
    requires Shape(cfg, n) && q < |n.races| && RaceEnabled(cfg, n, q, rs)
    ensures Shape(cfg, AdvanceRace(cfg, n, q, rs))
  {
    R.StepKeepsInv(n.races[q].race, rs);
    var n1 := n.(races := n.races[q := n.races[q].(race := R.Apply(n.races[q].race, rs))],
                 c := n.c.(hedge := R.Book(n.c.hedge, n.races[q].race, rs)));
    assert Shape(cfg, n1);
    if rs.CdnRelease? {
      SlotPasses(cfg, n1);
    }
  }

  lemma RaceLeft(cfg: Config, n: Node, f: nat)
    requires Shape(cfg, n) && RaceOver(n, f)
    ensures Shape(cfg, LeaveRace(n, f))
  {
    FlightMoves(cfg, n, f, LeaveRace(n, f).flights[f]);
    SameKeeps(cfg, n.(flights := LeaveRace(n, f).flights), LeaveRace(n, f));
  }

  lemma AnswerLeads(cfg: Config, n: Node, r: nat)
    requires ReqsOk(n) && LeadersOk(n) && Enabled(cfg, n, Wake(r))
    ensures LeadersOk(Answer(n, r))
  {
  }

  lemma WaiterAnswered(cfg: Config, n: Node, r: nat)
    requires Shape(cfg, n) && Enabled(cfg, n, Wake(r))
    ensures Shape(cfg, Answer(n, r))
  {
    hide LeadersOk;
    AnswerLeads(cfg, n, r);
  }

  lemma WriteKeeps(cfg: Config, n: Node, f: nat, ok: bool)
    requires Shape(cfg, n) && Enabled(cfg, n, Write(f, ok))
    ensures Shape(cfg, StoreBody(n, f, ok))
  {
    var n' := StoreBody(n, f, ok);
    if ok || n.flights[f].st.via.ViaPlain? {
      FlightMoves(cfg, n, f, n'.flights[f]);
      SameKeeps(cfg, n.(flights := n'.flights), n');
    } else {
      FlightFinishes(cfg, n, f, Err(500));
      SameKeeps(cfg, Finish(n, f, Err(500)), n');
    }
  }

  lemma SettleKeeps(cfg: Config, n: Node, f: nat)
    requires Shape(cfg, n) && Enabled(cfg, n, Settle(f))
    ensures Shape(cfg, Settled(n, f))
  {
    var n' := Settled(n, f);
    if n.flights[f].st.via.ViaPlain? {
      FlightMoves(cfg, n, f, n'.flights[f]);
      SameKeeps(cfg, n.(flights := n'.flights), n');
    } else {
      FlightFinishes(cfg, n, f, n'.flights[f].st.result);
      SameKeeps(cfg, Finish(n, f, n'.flights[f].st.result), n');
    }
  }

  lemma RequestStepKeeps(cfg: Config, n: Node, step: Step)
    requires Shape(cfg, n) && Enabled(cfg, n, step)
    requires step.Arrive? || step.ReadHit? || step.TouchHit? || step.ServeHit?
    ensures Shape(cfg, Apply(cfg, n, step))
  {
    var n' := Apply(cfg, n, step);
    if step.Arrive? {
      RequestArrives(cfg, n, n'.reqs[|n.reqs|]);
    } else {
      RequestMoves(cfg, n, step.r, n'.reqs[step.r].st);
      SameKeeps(cfg, SetReq(n, step.r, n'.reqs[step.r].st), n');
    }
  }

  lemma SearchStepKeeps(cfg: Config, n: Node, step: Step)
    requires Shape(cfg, n) && Enabled(cfg, n, step) && (step.Decide? || step.Probe? || step.Acquire?)
    ensures Shape(cfg, Apply(cfg, n, step))
  {
    hide Shape;
    var m, f := Apply(cfg, n, step), step.f;
    if step.Decide? && cfg.peers != [] && step.live {
      RaceStarts(cfg, n, f, n.sticky.value, true, 0);
    } else if step.Probe? && step.found.Some? {
      RaceStarts(cfg, n, f, step.found.value, false, step.issued);
    } else if step.Acquire? && !SlotFree(cfg, n) {
      FlightQueues(cfg, n, f);
    } else {
      FlightMoves(cfg, n, f, m.flights[f]);
      SameKeeps(cfg, n.(flights := m.flights), m);
    }
  }

  lemma StepKeepsShape(cfg: Config, n: Node, step: Step)
    requires Shape(cfg, n) && Enabled(cfg, n, step)
    ensures Shape(cfg, Apply(cfg, n, step))
  {
    hide Shape, StartRace, RaceEnabled, AdvanceRace, LeaveRace, StoreBody, Settled, Answer, FreeSlot;
    var m := Apply(cfg, n, step);
    match step
    case Arrive(_, _) => RequestStepKeeps(cfg, n, step);
    case ReadHit(_) => RequestStepKeeps(cfg, n, step);
    case ReadMiss(r) =>
      if !n.reqs[r].kind.ClientGet? {
        RequestMoves(cfg, n, r, NotFound);
      } else if n.reqs[r].key in n.sf {
        RequestJoins(cfg, n, r);
      } else {
        RequestLeads(cfg, n, r);
      }
    case TouchHit(_) => RequestStepKeeps(cfg, n, step);
    case ServeHit(_) => RequestStepKeeps(cfg, n, step);
    case Decide(_, _) => SearchStepKeeps(cfg, n, step);
    case RaceStep(q, rs) => RaceAdvances(cfg, n, q, rs);
    case RaceReturn(f) => RaceLeft(cfg, n, f);
    case Probe(_, _, _, _) => SearchStepKeeps(cfg, n, step);
    case Acquire(_) => SearchStepKeeps(cfg, n, step);
    case Cancel(f) => FlightCancels(cfg, n, f);
    case Fetch(f, _, _) => FlightMoves(cfg, n, f, m.flights[f]);
    case Write(f, ok) => WriteKeeps(cfg, n, f, ok);
    case RecordStart(f) => RecordStarts(cfg, n, f, m.lru);
    case EvictPop(_) => EvictionMoves(cfg, n, m);
    case EvictDel => EvictionMoves(cfg, n, m);
    case EvictEnd(_) => RecordEnds(cfg, n);
    case Settle(f) => SettleKeeps(cfg, n, f);
    case Release(f) =>
      FlightFinishes(cfg, n, f, n.flights[f].st.result);
      SlotPasses(cfg, Finish(n, f, n.flights[f].st.result));
    case Wake(r) => WaiterAnswered(cfg, n, r);
  }

  lemma {:induction false} RunKeepsShape(cfg: Config, first: Node, steps: seq<Step>, n: Node)
    requires Run(cfg, first, steps, n)
    ensures Shape(cfg, n)
    decreases |steps|
  {
    if steps != [] {
      var before, last := steps[..|steps| - 1], steps[|steps| - 1];
      var m :| Run(cfg, first, before, m) && Enabled(cfg, m, last) && n == Apply(cfg, m, last);
      RunKeepsShape(cfg, first, before, m);
      StepKeepsShape(cfg, m, last);
    }
  }
}
