/** Every request is answered (shim-go/xorb.go:106-205): each step but an arrival uses up some of a node's finite
    work, and while a request is unanswered a step is possible. */
module NodeProgress {
  import opened Types
  import opened Seqs
  import opened LruSpec
  import R = Race
  import opened Node
  import opened NodeShape
  import opened NodeSlots

  // ---- what is left to do ----

  /** A race's four parties, each counted by the moves it still has. */
  function RaceLeft(race: R.Race): nat {
    (match race.main
     case HeadStart => 3
     case Hedged => 2
     case AwaitCdn => 1
     case AwaitPeer => 1
     case Returned(_, _, _) => 0)
    + (match race.peer
       case PeerRunning => 2
       case PeerReady(_) => 1
       case PeerSent(_) => 0)
    + (match race.cdn
       case CdnIdle => 5
       case CdnStarting => 4
       case CdnHolding => 3
       case CdnRead(_) => 2
       case CdnReady(_) => 1
       case CdnSent(_) => 0)
    + (match race.drain
       case NoDrain => 2
       case Draining => 1
       case Drained => 0)
  }

  /** What a new race brings: its own moves, and for the node it dials an arrival and the dial itself. */
  const CREDIT: nat := 4
  const RACE_LEFT: nat := 12 + CREDIT

  /** A flight's way to its end, the races and the LRU entry it may still add included. */
  function FlightLeft(fl: Flight): int {
    match fl.st
    case Finished(_) => 0
    case Releasing(_) => 1
    case Recorded(_, _) => 2
    case Recording(_, _) => 3
    case Written(_, _) => 6
    case Fetched(_, _) => 7
    case Holding => 8
    case Queued => 9
    case PlainStart => 10
    case InRace(_, sticky) => if sticky then 13 + RACE_LEFT else 11
    case Probing => 12 + RACE_LEFT
    case Deciding => 14 + 2 * RACE_LEFT
  }

  const CLIENT_LEFT: nat := 16 + 2 * RACE_LEFT

  function RequestLeft(q: Request): int {
    match q.st
    case Arrived => if q.kind.ClientGet? then CLIENT_LEFT else 3
    case HitRead(_) => 2
    case HitTouched(_) => 1
    case HeadFound => 1
    case Waiting(_) => 1
    case _ => 0
  }

  function RecordLeft(rec: RaceRec): int { RaceLeft(rec.race) }

  /** Two moves for each entry that could be evicted, one for an entry whose file is still to go. */
  function LruLeft(n: Node): int {
    2 * |n.lru| + if n.lock.Busy? && n.lock.popped.Some? then 1 else 0
  }

  ghost function Left(n: Node): int {
    Sum(n.reqs, RequestLeft) + Sum(n.flights, FlightLeft) + Sum(n.races, RecordLeft) + LruLeft(n)
  }

  lemma LeftIsNatural(n: Node)
    ensures 0 <= Left(n)
  {
    SumBounds(n.reqs, RequestLeft);
    SumBounds(n.flights, FlightLeft);
    SumBounds(n.races, RecordLeft);
  }

  // ---- one lemma per kind of change ----

  lemma RequestUses(n: Node, m: Node, r: nat)
    requires r < |n.reqs| == |m.reqs| && m.reqs == n.reqs[r := m.reqs[r]]
    requires m.flights == n.flights && m.races == n.races
    ensures Left(m) == Left(n) - RequestLeft(n.reqs[r]) + RequestLeft(m.reqs[r]) + LruLeft(m) - LruLeft(n)
  {
    SumUpdate(n.reqs, r, m.reqs[r], RequestLeft);
  }

  lemma FlightUses(n: Node, m: Node, f: nat)
    requires f < |n.flights| == |m.flights| && m.flights == n.flights[f := m.flights[f]]
    requires m.reqs == n.reqs && m.races == n.races
    ensures Left(m) == Left(n) - FlightLeft(n.flights[f]) + FlightLeft(m.flights[f]) + LruLeft(m) - LruLeft(n)
  {
    SumUpdate(n.flights, f, m.flights[f], FlightLeft);
  }

  lemma RaceBeginsUses(n: Node, f: nat, target: PeerId, sticky: bool, issued: nat)
    requires f < |n.flights| && FlightLeft(n.flights[f]) > RACE_LEFT + if sticky then 13 + RACE_LEFT else 11
    ensures Left(StartRace(n, f, target, sticky, issued)) + CREDIT < Left(n)
  {
    var m := StartRace(n, f, target, sticky, issued);
    SumUpdate(n.flights, f, m.flights[f], FlightLeft);
    SumAppend(n.races, RaceRec(f, target, R.START), RecordLeft);
  }

  lemma MissUses(n: Node, r: nat)
    requires r < |n.reqs| && n.reqs[r].st.Arrived?
    ensures Left(Miss(n, r)) < Left(n) && Miss(n, r).races == n.races
  {
    var m := Miss(n, r);
    SumUpdate(n.reqs, r, m.reqs[r], RequestLeft);
    if |m.flights| > |n.flights| {
      SumAppend(n.flights, m.flights[|n.flights|], FlightLeft);
    }
  }

  /** A slot that is handed on moves the flight that was waiting for it. */
  lemma SlotPassUses(cfg: Config, n: Node)
    requires QueueOk(cfg, n) && (cfg.cap.Some? ==> 0 < n.used)
    ensures Left(FreeSlot(cfg, n)) <= Left(n) && FreeSlot(cfg, n).races == n.races
  {
    if cfg.cap.Some? && n.queue != [] {
      assert n.queue[0] in n.queue;
      FlightUses(n, FreeSlot(cfg, n), n.queue[0]);
    }
  }

  lemma RaceStepUses(race: R.Race, rs: R.Step)
    requires R.Inv(race) && R.Enabled(race, rs)
    ensures RaceLeft(R.Apply(race, rs)) < RaceLeft(race)
  {
  }

  lemma RaceGoesOnUses(cfg: Config, n: Node, q: nat, rs: R.Step)
    requires Shape(cfg, n) && q < |n.races| && RaceEnabled(cfg, n, q, rs)
    ensures Left(AdvanceRace(cfg, n, q, rs)) < Left(n) && |AdvanceRace(cfg, n, q, rs).races| == |n.races|
  {
    var rec := n.races[q].(race := R.Apply(n.races[q].race, rs));
    var n1 := n.(races := n.races[q := rec], c := n.c.(hedge := R.Book(n.c.hedge, n.races[q].race, rs)));
    RaceStepUses(n.races[q].race, rs);
    SumUpdate(n.races, q, rec, RecordLeft);
    if rs.CdnRelease? {
      SlotPassUses(cfg, n1);
    }
  }

  lemma {:induction false} WithoutShorter(s: seq<Entry<Key>>, k: Key)
    requires Has(s, k)
    ensures |Without(s, k)| < |s|
  {
    if s[0].key != k {
      var i :| 0 <= i < |s| && s[i].key == k;
      assert s[1..][i - 1].key == k;
      WithoutShorter(s[1..], k);
    }
  }

  lemma TouchUses(cfg: Config, n: Node, r: nat)
    requires Enabled(cfg, n, TouchHit(r))
    ensures Left(Apply(cfg, n, TouchHit(r))) < Left(n)
    ensures Apply(cfg, n, TouchHit(r)).races == n.races
  {
    var m := Apply(cfg, n, TouchHit(r));
    if Has(n.lru, n.reqs[r].key) {
      WithoutShorter(n.lru, n.reqs[r].key);
    }
    RequestUses(n, m, r);
  }

  lemma ReleaseUses(cfg: Config, n: Node, f: nat)
    requires Shape(cfg, n) && Enabled(cfg, n, Release(f))
    ensures Left(Apply(cfg, n, Release(f))) < Left(n)
    ensures Apply(cfg, n, Release(f)).races == n.races
  {
    hide Left, ReqsOk, LeadersOk, SingleFlight, RacesOk, LockOk, QueueOk;
    var ended := Finish(n, f, n.flights[f].st.result);
    FlightUses(n, ended, f);
    FlightFinishes(cfg, n, f, n.flights[f].st.result);
    SlotPassUses(cfg, ended);
  }

  lemma AnswerUses(n: Node, r: nat)
    requires r < |n.reqs| && n.reqs[r].st.Waiting? && n.reqs[r].st.flight < |n.flights|
    requires n.flights[n.reqs[r].st.flight].st.Finished?
    ensures Left(Answer(n, r)) < Left(n) && Answer(n, r).races == n.races
  {
    var m := Answer(n, r);
    RequestUses(n, n.(reqs := m.reqs), r);
    FlightUses(n.(reqs := m.reqs), m, n.reqs[r].st.flight);
  }

  lemma RequestStepUses(cfg: Config, n: Node, step: Step)
    requires Enabled(cfg, n, step) && (step.ReadHit? || step.ServeHit?)
    ensures Left(Apply(cfg, n, step)) < Left(n)
    ensures Apply(cfg, n, step).races == n.races
  {
    RequestUses(n, Apply(cfg, n, step), step.r);
  }

  lemma EvictUses(cfg: Config, n: Node, step: Step)
    requires Enabled(cfg, n, step) && (step.EvictPop? || step.EvictDel?)
    ensures Left(Apply(cfg, n, step)) < Left(n)
    ensures Apply(cfg, n, step).races == n.races
  {
  }

  lemma ReturnUses(cfg: Config, n: Node, step: Step)
    requires Enabled(cfg, n, step) && step.RaceReturn?
    ensures Left(Apply(cfg, n, step)) < Left(n)
    ensures Apply(cfg, n, step).races == n.races
  {
    hide Left;
    FlightUses(n, Apply(cfg, n, step), step.f);
  }

  lemma SlotStepUses(cfg: Config, n: Node, step: Step)
    requires Enabled(cfg, n, step) && (step.Acquire? || step.Cancel?)
    ensures Left(Apply(cfg, n, step)) < Left(n)
    ensures Apply(cfg, n, step).races == n.races
  {
    hide Left;
    FlightUses(n, Apply(cfg, n, step), step.f);
  }

  lemma FetchUses(cfg: Config, n: Node, step: Step)
    requires Enabled(cfg, n, step) && step.Fetch?
    ensures Left(Apply(cfg, n, step)) < Left(n)
    ensures Apply(cfg, n, step).races == n.races
  {
    hide Left;
    FlightUses(n, Apply(cfg, n, step), step.f);
  }

  lemma WriteUses(cfg: Config, n: Node, step: Step)
    requires Enabled(cfg, n, step) && step.Write?
    ensures Left(Apply(cfg, n, step)) < Left(n)
    ensures Apply(cfg, n, step).races == n.races
  {
    hide Left;
    FlightUses(n, Apply(cfg, n, step), step.f);
  }

  lemma RecordStepUses(cfg: Config, n: Node, step: Step)
    requires Enabled(cfg, n, step) && (step.RecordStart? || step.Settle?)
    ensures Left(Apply(cfg, n, step)) < Left(n)
    ensures Apply(cfg, n, step).races == n.races
  {
    hide Left;
    FlightUses(n, Apply(cfg, n, step), step.f);
  }

  /** Every step but an arrival uses up work, and one that starts a race more than its credit. */
  lemma StepUses(cfg: Config, n: Node, step: Step)
    requires Shape(cfg, n) && Enabled(cfg, n, step) && !step.Arrive?
    ensures Left(Apply(cfg, n, step)) < Left(n)
    ensures Left(Apply(cfg, n, step)) + CREDIT * |Apply(cfg, n, step).races| < Left(n) + CREDIT * |n.races|
  {
    hide Left, Shape, Miss, AdvanceRace, FreeSlot, LeaveRace, RaceEnabled, Answer, Touch;
    var m := Apply(cfg, n, step);
    match step
    case ReadHit(_) => RequestStepUses(cfg, n, step);
    case ReadMiss(r) => MissUses(n, r);
    case TouchHit(r) => TouchUses(cfg, n, r);
    case ServeHit(_) => RequestStepUses(cfg, n, step);
    case Decide(f, live) =>
      if cfg.peers != [] && live {
        RaceBeginsUses(n, f, n.sticky.value, true, 0);
      } else {
        FlightUses(n, m, f);
      }
    case RaceStep(q, rs) => RaceGoesOnUses(cfg, n, q, rs);
    case RaceReturn(_) => ReturnUses(cfg, n, step);
    case Probe(f, found, _, issued) =>
      if found.Some? {
        RaceBeginsUses(n, f, found.value, false, issued);
      } else {
        FlightUses(n, m, f);
      }
    case Acquire(_) => SlotStepUses(cfg, n, step);
    case Cancel(_) => SlotStepUses(cfg, n, step);
    case Fetch(_, _, _) => FetchUses(cfg, n, step);
    case Write(_, _) => WriteUses(cfg, n, step);
    case RecordStart(_) => RecordStepUses(cfg, n, step);
    case EvictPop(_) => EvictUses(cfg, n, step);
    case EvictDel => EvictUses(cfg, n, step);
    case EvictEnd(_) => FlightUses(n, m, n.lock.flight);
    case Settle(_) => RecordStepUses(cfg, n, step);
    case Release(f) => ReleaseUses(cfg, n, f);
    case Wake(r) => AnswerUses(n, r);
  }

  // ---- runs without arrivals ----

  /** The steps lead from n to m, and none of them is an arrival. */
  ghost predicate OwnRun(cfg: Config, n: Node, steps: seq<Step>, m: Node)
    decreases |steps|
  {
    if steps == [] then n == m
    else Enabled(cfg, n, steps[0]) && !steps[0].Arrive? && OwnRun(cfg, Apply(cfg, n, steps[0]), steps[1..], m)
  }

  lemma {:induction false} OwnRunUses(cfg: Config, n: Node, steps: seq<Step>, m: Node)
    requires Shape(cfg, n) && OwnRun(cfg, n, steps, m)
    ensures Shape(cfg, m) && Left(m) + |steps| <= Left(n)
    decreases |steps|
  {
    hide Shape, Left, Enabled, Apply;
    if steps != [] {
      StepKeepsShape(cfg, n, steps[0]);
      StepUses(cfg, n, steps[0]);
      OwnRunUses(cfg, Apply(cfg, n, steps[0]), steps[1..], m);
    }
  }

  lemma RunExtends(cfg: Config, first: Node, past: seq<Step>, n: Node, step: Step)
    requires Run(cfg, first, past, n) && Enabled(cfg, n, step)
    ensures Run(cfg, first, past + [step], Apply(cfg, n, step))
  {
    hide Enabled, Apply;
    assert (past + [step])[..|past|] == past;
  }

  /** A node can always answer everyone: from every reachable state a run of its own steps leads to one in which
      every request is answered. */
  lemma {:induction false} CanAnswer(cfg: Config, first: Node, past: seq<Step>, n: Node)
    returns (steps: seq<Step>, m: Node)
    requires Run(cfg, first, past, n)
    ensures OwnRun(cfg, n, steps, m) && AtRest(m)
    decreases Left(n) + 1
  {
    LeftIsNatural(n);
    hide Run, Enabled, Apply, Left, Unfinished;
    if AtRest(n) {
      steps, m := [], n;
    } else {
      var r: nat :| r < |n.reqs| && Unfinished(n.reqs[r].st);
      NoDeadlock(cfg, first, past, n, r);
      var step :| Enabled(cfg, n, step) && OwnStep(step);
      NodeShapeHolds(cfg, first, past, n);
      StepUses(cfg, n, step);
      LeftIsNatural(Apply(cfg, n, step));
      RunExtends(cfg, first, past, n, step);
      var rest;
      rest, m := CanAnswer(cfg, first, past + [step], Apply(cfg, n, step));
      steps := [step] + rest;
      assert steps[1..] == rest;
    }
  }

  lemma NodeShapeHolds(cfg: Config, first: Node, past: seq<Step>, n: Node)
    requires Run(cfg, first, past, n)
    ensures Shape(cfg, n)
  {
    RunKeepsShape(cfg, first, past, n);
  }

  lemma {:induction false} OwnRunExtends(cfg: Config, first: Node, past: seq<Step>, n: Node, steps: seq<Step>, m: Node)
    requires Run(cfg, first, past, n) && OwnRun(cfg, n, steps, m)
    ensures Run(cfg, first, past + steps, m)
    decreases |steps|
  {
    hide Run, Enabled, Apply;
    if steps == [] {
      assert past + steps == past;
    } else {
      RunExtends(cfg, first, past, n, steps[0]);
      OwnRunExtends(cfg, first, past + [steps[0]], Apply(cfg, n, steps[0]), steps[1..], m);
      assert past + [steps[0]] + steps[1..] == past + steps;
    }
  }

  /** Every request is answered: without further arrivals a reachable node makes at most Left(n) steps, in whatever
      order, and it has none left only when every request has its answer. */
  lemma EveryRequestIsAnswered(cfg: Config, first: Node, past: seq<Step>, n: Node, steps: seq<Step>, m: Node)
    requires Run(cfg, first, past, n) && OwnRun(cfg, n, steps, m)
    ensures |steps| <= Left(n)
    ensures !CanMove(cfg, m) ==> AtRest(m)
  {
    NodeShapeHolds(cfg, first, past, n);
    OwnRunExtends(cfg, first, past, n, steps, m);
    LeftIsNatural(m);
    hide Run, Shape, Left, OwnRun, CanMove, Unfinished;
    OwnRunUses(cfg, n, steps, m);
    forall r: nat | r < |m.reqs| && Unfinished(m.reqs[r].st) ensures CanMove(cfg, m) {
      NoDeadlock(cfg, first, past + steps, m, r);
    }
  }
}
