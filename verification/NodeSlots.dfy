/** The fetch semaphore (shim-go/server.go:87-123): every slot in use is owned by exactly one fetch, the pool
    never exceeds its capacity, a blocked miss means a full pool, and no owner of a slot waits for one. */
module NodeSlots {
  import opened Types
  import opened Seqs
  import R = Race
  import opened Node
  import opened NodeShape
  import NodeLosers

  /** 1 for a flight between acquire and its deferred release. */
  function FlightSlots(fl: Flight): int {
    match fl.st
    case Holding => 1
    case Fetched(_, via) => if via.ViaPlain? then 1 else 0
    case Written(_, via) => if via.ViaPlain? then 1 else 0
    case Recording(_, via) => if via.ViaPlain? then 1 else 0
    case Recorded(_, via) => if via.ViaPlain? then 1 else 0
    case Releasing(_) => 1
    case _ => 0
  }

  /** 1 for a hedge between tryAcquire and its deferred release. */
  function RaceSlots(rec: RaceRec): int { R.Holds(rec.race) }

  ghost function Owners(n: Node): int { Sum(n.flights, FlightSlots) + Sum(n.races, RaceSlots) }

  ghost predicate SlotInv(cfg: Config, n: Node) {
    cfg.cap.Some? ==> n.used == Owners(n) && n.used <= cfg.cap.value && (n.queue != [] ==> n.used == cfg.cap.value)
  }

  /** Steps that move one flight and neither the pool nor its queue. */
  lemma QuietFlightKeeps(cfg: Config, n: Node, m: Node, f: nat)
    requires SlotInv(cfg, n) && f < |n.flights| == |m.flights| && m.flights == n.flights[f := m.flights[f]]
    requires m.races == n.races && m.used == n.used && m.queue == n.queue
    requires FlightSlots(m.flights[f]) == FlightSlots(n.flights[f])
    ensures SlotInv(cfg, m)
  {
    SumUpdate(n.flights, f, m.flights[f], FlightSlots);
  }

  /** Returning a slot: the head of the queue inherits it, or the pool shrinks. n is the state in which the
      owner has already let go but the pool still counts it. */
  lemma FreeSlotKeeps(cfg: Config, n: Node)
    requires Shape(cfg, n) && cfg.cap.Some? && 0 < n.used
    requires n.used == Owners(n) + 1 && n.used <= cfg.cap.value && (n.queue != [] ==> n.used == cfg.cap.value)
    ensures SlotInv(cfg, FreeSlot(cfg, n))
  {
    SumNonNegative(n);
    if n.queue != [] {
      var f := n.queue[0];
      assert f in n.queue;
      SumUpdate(n.flights, f, n.flights[f].(st := Holding), FlightSlots);
    }
  }

  lemma SumNonNegative(n: Node)
    ensures 0 <= Owners(n)
    ensures forall f :: 0 <= f < |n.flights| && FlightSlots(n.flights[f]) == 1 ==> 0 < Owners(n)
    ensures forall q :: 0 <= q < |n.races| && RaceSlots(n.races[q]) == 1 ==> 0 < Owners(n)
  {
    SumBounds(n.flights, FlightSlots);
    SumBounds(n.races, RaceSlots);
    forall f | 0 <= f < |n.flights| && FlightSlots(n.flights[f]) == 1 ensures 0 < Owners(n) {
      assert n.flights[f] in n.flights;
    }
    forall q | 0 <= q < |n.races| && RaceSlots(n.races[q]) == 1 ensures 0 < Owners(n) {
      assert n.races[q] in n.races;
    }
  }

  lemma RaceStepKeeps(cfg: Config, n: Node, q: nat, rs: R.Step)
    requires Shape(cfg, n) && SlotInv(cfg, n) && q < |n.races| && RaceEnabled(cfg, n, q, rs)
    ensures SlotInv(cfg, AdvanceRace(cfg, n, q, rs))
  {
    var rec := n.races[q].(race := R.Apply(n.races[q].race, rs));
    SumUpdate(n.races, q, rec, RaceSlots);
    if rs.CdnRelease? && cfg.cap.Some? {
      var n1 := n.(races := n.races[q := rec], c := n.c.(hedge := R.Book(n.c.hedge, n.races[q].race, rs)));
      R.StepKeepsInv(n.races[q].race, rs);
      assert RacesOk(n1);
      FreeSlotKeeps(cfg, n1);
    }
  }

  lemma StartRaceKeeps(cfg: Config, n: Node, f: nat, target: PeerId, sticky: bool, issued: nat)
    requires SlotInv(cfg, n) && f < |n.flights| && FlightSlots(n.flights[f]) == 0
    ensures SlotInv(cfg, StartRace(n, f, target, sticky, issued))
  {
    var m := StartRace(n, f, target, sticky, issued);
    SumUpdate(n.flights, f, m.flights[f], FlightSlots);
    SumAppend(n.races, RaceRec(f, target, R.START), RaceSlots);
  }

  lemma AcquireKeeps(cfg: Config, n: Node, f: nat)
    requires SlotInv(cfg, n) && Enabled(cfg, n, Acquire(f))
    ensures SlotInv(cfg, Apply(cfg, n, Acquire(f)))
  {
    var m := Apply(cfg, n, Acquire(f));
    SumUpdate(n.flights, f, m.flights[f], FlightSlots);
  }

  lemma CancelKeeps(cfg: Config, n: Node, f: nat)
    requires Shape(cfg, n) && SlotInv(cfg, n) && Enabled(cfg, n, Cancel(f))
    ensures SlotInv(cfg, Apply(cfg, n, Cancel(f)))
  {
    hide ReqsOk, LeadersOk, SingleFlight, RacesOk, LockOk;
    var m := Apply(cfg, n, Cancel(f));
    SumUpdate(n.flights, f, m.flights[f], FlightSlots);
  }

  lemma FinishLetsGo(n: Node, f: nat, result: Result)
    requires f < |n.flights| && n.flights[f].st.Releasing?
    ensures Owners(Finish(n, f, result)) == Owners(n) - 1
  {
    SumUpdate(n.flights, f, n.flights[f].(st := Finished(result)), FlightSlots);
  }

  lemma ReleaseKeeps(cfg: Config, n: Node, f: nat)
    requires Shape(cfg, n) && SlotInv(cfg, n) && f < |n.flights| && n.flights[f].st.Releasing?
    requires cfg.cap.Some? ==> 0 < n.used
    ensures SlotInv(cfg, FreeSlot(cfg, Finish(n, f, n.flights[f].st.result)))
  {
    if cfg.cap.Some? {
      var result := n.flights[f].st.result;
      FinishLetsGo(n, f, result);
      FlightFinishes(cfg, n, f, result);
      FreeSlotKeeps(cfg, Finish(n, f, result));
    }
  }

  lemma MissKeepsSlots(cfg: Config, n: Node, r: nat)
    requires SlotInv(cfg, n) && r < |n.reqs|
    ensures SlotInv(cfg, Miss(n, r))
  {
    SumAppend(n.flights, Flight(n.reqs[r].key, r, Deciding, [], 0, 0, false), FlightSlots);
  }

  lemma LeaveRaceKeeps(cfg: Config, n: Node, f: nat)
    requires SlotInv(cfg, n) && RaceOver(n, f)
    ensures SlotInv(cfg, LeaveRace(n, f))
  {
    QuietFlightKeeps(cfg, n, LeaveRace(n, f), f);
  }

  lemma AnswerKeeps(cfg: Config, n: Node, r: nat)
    requires SlotInv(cfg, n) && Enabled(cfg, n, Wake(r))
    ensures SlotInv(cfg, Answer(n, r))
  {
    QuietFlightKeeps(cfg, n, Answer(n, r), n.reqs[r].st.flight);
  }

  lemma EvictEndKeeps(cfg: Config, n: Node, low: bool)
    requires SlotInv(cfg, n) && Enabled(cfg, n, EvictEnd(low))
    ensures SlotInv(cfg, Apply(cfg, n, EvictEnd(low)))
  {
    QuietFlightKeeps(cfg, n, Apply(cfg, n, EvictEnd(low)), n.lock.flight);
  }

  /** Steps of one flight that keep whatever slot it has. */
  lemma FlightStepKeeps(cfg: Config, n: Node, step: Step, f: nat)
    requires SlotInv(cfg, n) && Enabled(cfg, n, step)
    requires (step.Fetch? || step.Write? || step.RecordStart? || step.Settle?) && step.f == f
    ensures SlotInv(cfg, Apply(cfg, n, step))
  {
    QuietFlightKeeps(cfg, n, Apply(cfg, n, step), f);
  }

  lemma QuietStepKeeps(cfg: Config, n: Node, step: Step)
    requires SlotInv(cfg, n) && Enabled(cfg, n, step)
    requires step.Arrive? || step.ReadHit? || step.TouchHit? || step.ServeHit? || step.EvictPop? || step.EvictDel?
    ensures SlotInv(cfg, Apply(cfg, n, step))
  {
  }

  lemma StepKeepsSlots(cfg: Config, n: Node, step: Step)
    requires Shape(cfg, n) && SlotInv(cfg, n) && Enabled(cfg, n, step)
    ensures SlotInv(cfg, Apply(cfg, n, step))
  {
    hide SlotInv;
    match step
    case Arrive(_, _) => QuietStepKeeps(cfg, n, step);
    case ReadHit(_) => QuietStepKeeps(cfg, n, step);
    case ReadMiss(r) => MissKeepsSlots(cfg, n, r);
    case TouchHit(_) => QuietStepKeeps(cfg, n, step);
    case ServeHit(_) => QuietStepKeeps(cfg, n, step);
    case Decide(f, live) =>
      if cfg.peers != [] && live {
        StartRaceKeeps(cfg, n, f, n.sticky.value, true, 0);
      } else {
        QuietFlightKeeps(cfg, n, Apply(cfg, n, step), f);
      }
    case RaceStep(q, rs) => RaceStepKeeps(cfg, n, q, rs);
    case RaceReturn(f) => LeaveRaceKeeps(cfg, n, f);
    case Probe(f, found, timedOut, issued) =>
      if found.Some? {
        StartRaceKeeps(cfg, n, f, found.value, false, issued);
      } else {
        QuietFlightKeeps(cfg, n, ProbeFailed(n, f, timedOut, issued), f);
      }
    case Acquire(f) => AcquireKeeps(cfg, n, f);
    case Cancel(f) => CancelKeeps(cfg, n, f);
    case Fetch(f, _, _) => FlightStepKeeps(cfg, n, step, f);
    case Write(f, _) => FlightStepKeeps(cfg, n, step, f);
    case RecordStart(f) => FlightStepKeeps(cfg, n, step, f);
    case EvictPop(_) => QuietStepKeeps(cfg, n, step);
    case EvictDel => QuietStepKeeps(cfg, n, step);
    case EvictEnd(low) => EvictEndKeeps(cfg, n, low);
    case Settle(f) => FlightStepKeeps(cfg, n, step, f);
    case Release(f) => ReleaseKeeps(cfg, n, f);
    case Wake(r) => AnswerKeeps(cfg, n, r);
  }

  lemma {:induction false} RunKeepsSlots(cfg: Config, first: Node, steps: seq<Step>, n: Node)
    requires Run(cfg, first, steps, n)
    ensures ValidConfig(cfg) && Shape(cfg, n) && SlotInv(cfg, n)
    decreases |steps|
  {
    if steps != [] {
      var before, last := steps[..|steps| - 1], steps[|steps| - 1];
      var m :| Run(cfg, first, before, m) && Enabled(cfg, m, last) && n == Apply(cfg, m, last);
      RunKeepsSlots(cfg, first, before, m);
      StepKeepsShape(cfg, m, last);
      StepKeepsSlots(cfg, m, last);
    }
  }

  /** In every reachable state the pool counts its owners one for one and within the cap; a flight blocked in
      acquire holds no slot, and no goroutine it started does; a blocked miss means a full pool, so no hedge can
      be granted a slot ahead of it; and a release never blocks. */
  lemma SlotDiscipline(cfg: Config, first: Node, steps: seq<Step>, n: Node)
    requires Run(cfg, first, steps, n) && cfg.cap.Some?
    ensures n.used == Owners(n) <= cfg.cap.value
    ensures forall f :: f in n.queue ==> f < |n.flights| && FlightSlots(n.flights[f]) == 0
    ensures forall q :: 0 <= q < |n.races| && n.races[q].flight in n.queue ==> RaceSlots(n.races[q]) == 0
    ensures n.queue != [] ==> forall q :: 0 <= q < |n.races| ==> !Enabled(cfg, n, RaceStep(q, R.CdnGrant))
    ensures forall f :: 0 <= f < |n.flights| && n.flights[f].st.Releasing? ==> Enabled(cfg, n, Release(f))
    ensures forall q :: 0 <= q < |n.races| && n.races[q].race.cdn.CdnRead? ==>
              Enabled(cfg, n, RaceStep(q, R.CdnRelease))
  {
    hide Run, Owners, ReqsOk, LeadersOk, SingleFlight, LockOk;
    RunKeepsSlots(cfg, first, steps, n);
    SumNonNegative(n);
    forall q: nat | q < |n.races| && n.races[q].flight in n.queue ensures RaceSlots(n.races[q]) == 0 {
      assert n.flights[n.races[q].flight].st.Queued?;
      NodeLosers.SearchHoldsNothing(cfg, first, steps, n, q);
    }
    forall q | 0 <= q < |n.races| ensures n.queue != [] ==> !Enabled(cfg, n, RaceStep(q, R.CdnGrant)) {
      assert n.queue != [] ==> !SlotFree(cfg, n);
    }
    forall f | 0 <= f < |n.flights| && n.flights[f].st.Releasing? ensures Enabled(cfg, n, Release(f)) {
      assert FlightSlots(n.flights[f]) == 1;
    }
    forall q | 0 <= q < |n.races| && n.races[q].race.cdn.CdnRead? ensures Enabled(cfg, n, RaceStep(q, R.CdnRelease)) {
      assert RaceSlots(n.races[q]) == 1;
    }
  }

  // ---- progress ----

  /** A step the node can take by itself: no arrival, no client giving up, and no body from a peer or the CDN. */
  predicate OwnStep(step: Step) {
    && !step.Arrive? && !step.Cancel?
    && (step.Fetch? ==> step.got.Err?)
    && (step.RaceStep? ==> (step.rs.PeerDone? ==> !step.rs.reply.ok) && (step.rs.CdnFetch? ==> !step.rs.pull.ok))
  }

  ghost predicate CanMove(cfg: Config, n: Node) {
    exists step :: Enabled(cfg, n, step) && OwnStep(step)
  }

  lemma LockMoves(cfg: Config, n: Node)
    requires Shape(cfg, n) && n.lock.Busy?
    ensures CanMove(cfg, n)
  {
    if n.lock.popped.Some? {
      assert Enabled(cfg, n, EvictDel);
    } else if n.lru != [] && Over(cfg, n.lru, false) {
      assert Enabled(cfg, n, EvictPop(false));
    } else {
      assert Enabled(cfg, n, EvictEnd(false));
    }
  }

  lemma RaceMoves(cfg: Config, n: Node, q: nat)
    requires Shape(cfg, n) && SlotInv(cfg, n) && q < |n.races| && !R.Over(n.races[q].race)
    ensures CanMove(cfg, n)
  {
    var rs := R.NextStep(n.races[q].race, SlotFree(cfg, n));
    SumNonNegative(n);
    assert Enabled(cfg, n, RaceStep(q, rs));
  }

  lemma RacingFlightMoves(cfg: Config, n: Node, f: nat)
    requires Shape(cfg, n) && SlotInv(cfg, n) && f < |n.flights| && n.flights[f].st.InRace?
    ensures CanMove(cfg, n)
  {
    var q := n.flights[f].st.race;
    if n.races[q].race.main.Returned? {
      assert Enabled(cfg, n, RaceReturn(f));
    } else {
      RaceMoves(cfg, n, q);
    }
  }

  lemma ReleasingFlightMoves(cfg: Config, n: Node, f: nat)
    requires SlotInv(cfg, n) && f < |n.flights| && n.flights[f].st.Releasing?
    ensures CanMove(cfg, n)
  {
    SumNonNegative(n);
    assert FlightSlots(n.flights[f]) == 1;
    assert Enabled(cfg, n, Release(f));
  }

  lemma WritingFlightMoves(cfg: Config, n: Node, f: nat)
    requires Shape(cfg, n) && f < |n.flights| && (n.flights[f].st.Written? || n.flights[f].st.Recording?)
    ensures CanMove(cfg, n)
  {
    if n.lock.Free? {
      assert Enabled(cfg, n, RecordStart(f));
    } else {
      LockMoves(cfg, n);
    }
  }

  lemma PlainFlightMoves(cfg: Config, n: Node, f: nat)
    requires f < |n.flights|
    requires var st := n.flights[f].st;
             st.Deciding? || st.Probing? || st.PlainStart? || st.Holding? || st.Fetched? || st.Recorded?
    ensures CanMove(cfg, n)
  {
    match n.flights[f].st
    case Deciding => assert Enabled(cfg, n, Decide(f, false));
    case Probing => assert Enabled(cfg, n, Probe(f, None, false, 0));
    case PlainStart => assert Enabled(cfg, n, Acquire(f));
    case Holding => assert Enabled(cfg, n, Fetch(f, Err(502), 0));
    case Fetched(_, _) => assert Enabled(cfg, n, Write(f, true));
    case Recorded(_, _) => assert Enabled(cfg, n, Settle(f));
  }

  /** A flight that is not blocked in acquire moves, or waits for lru.mu whose holder moves. */
  lemma FlightMovesOn(cfg: Config, n: Node, f: nat)
    requires Shape(cfg, n) && SlotInv(cfg, n) && f < |n.flights|
    requires !n.flights[f].st.Finished? && !n.flights[f].st.Queued?
    ensures CanMove(cfg, n)
  {
    hide Enabled, CanMove, Shape, SlotInv;
    match n.flights[f].st
    case InRace(_, _) => RacingFlightMoves(cfg, n, f);
    case Written(_, _) => WritingFlightMoves(cfg, n, f);
    case Recording(_, _) => WritingFlightMoves(cfg, n, f);
    case Releasing(_) => ReleasingFlightMoves(cfg, n, f);
    case _ => PlainFlightMoves(cfg, n, f);
  }

  /** Whoever owns a slot while others queue for it can move: no owner is itself queued. */
  lemma OwnerMoves(cfg: Config, n: Node)
    requires Shape(cfg, n) && SlotInv(cfg, n) && cfg.cap.Some? && 0 < n.used
    ensures CanMove(cfg, n)
  {
    if 0 < Sum(n.flights, FlightSlots) {
      var f := SumPositive(n.flights, FlightSlots);
      FlightMovesOn(cfg, n, f);
    } else {
      var q := SumPositive(n.races, RaceSlots);
      RaceMoves(cfg, n, q);
    }
  }

  /** No deadlock: while any request is unanswered some step of the node's own is enabled, whatever the
      cap (1 included) and however many flights are blocked in acquire. */
  lemma NoDeadlock(cfg: Config, first: Node, steps: seq<Step>, n: Node, r: nat)
    requires Run(cfg, first, steps, n) && r < |n.reqs| && Unfinished(n.reqs[r].st)
    ensures CanMove(cfg, n)
  {
    RunKeepsSlots(cfg, first, steps, n);
    match n.reqs[r].st
    case Arrived => assert Enabled(cfg, n, ReadMiss(r));
    case HitRead(_) => if n.lock.Free? { assert Enabled(cfg, n, TouchHit(r)); } else { LockMoves(cfg, n); }
    case HeadFound => if n.lock.Free? { assert Enabled(cfg, n, TouchHit(r)); } else { LockMoves(cfg, n); }
    case HitTouched(_) => assert Enabled(cfg, n, ServeHit(r));
    case Waiting(f) =>
      if n.flights[f].st.Finished? {
        assert Enabled(cfg, n, Wake(r));
      } else if n.flights[f].st.Queued? {
        assert f in n.queue;
        OwnerMoves(cfg, n);
      } else {
        FlightMovesOn(cfg, n, f);
      }
  }
}
