/** Byte integrity inside one node: if every body that enters a node is the CDN's body for its key, so is every
    body the node stores, sends or serves (shim-go/xorb.go:128-205, shim-go/xorb.go:236-260). */
module NodeTruth {
  import opened Types
  import R = Race
  import opened Node
  import opened NodeShape

  ghost predicate ReqTrue(truth: Key -> Body, q: Request) {
    match q.st
    case HitRead(body) => body == truth(q.key)
    case HitTouched(body) => body == truth(q.key)
    case Served(body, _) => body == truth(q.key)
    case _ => true
  }

  ghost predicate FlightTrue(truth: Key -> Body, fl: Flight) {
    match fl.st
    case Fetched(body, _) => body == truth(fl.key)
    case Written(body, _) => body == truth(fl.key)
    case Recording(body, _) => body == truth(fl.key)
    case Recorded(body, _) => body == truth(fl.key)
    case Releasing(result) => result.Ok? ==> result.body == truth(fl.key)
    case Finished(result) => result.Ok? ==> result.body == truth(fl.key)
    case _ => true
  }

  ghost predicate AnswerTrue(a: R.Answer, body: Body) { a.ok ==> a.body == body }

  ghost predicate RaceTrue(race: R.Race, body: Body) {
    && (race.peer.PeerReady? || race.peer.PeerSent? ==> AnswerTrue(race.peer.answer, body))
    && (race.cdn.CdnRead? || race.cdn.CdnReady? || race.cdn.CdnSent? ==> AnswerTrue(race.cdn.answer, body))
  }

  ghost predicate Truthful(truth: Key -> Body, n: Node) {
    && (forall k :: k in n.disk ==> n.disk[k] == truth(k))
    && (forall r :: 0 <= r < |n.reqs| ==> ReqTrue(truth, n.reqs[r]))
    && (forall f :: 0 <= f < |n.flights| ==> FlightTrue(truth, n.flights[f]))
    && (forall q :: 0 <= q < |n.races| ==>
          n.races[q].flight < |n.flights| && RaceTrue(n.races[q].race, truth(n.flights[n.races[q].flight].key)))
  }

  /** Bodies carried by the label of a step: what a peer or the CDN delivered. */
  ghost predicate TrueStep(truth: Key -> Body, n: Node, step: Step) {
    match step
    case Fetch(f, got, _) => f < |n.flights| && got.Ok? ==> got.body == truth(n.flights[f].key)
    case RaceStep(q, rs) =>
      q < |n.races| && n.races[q].flight < |n.flights| ==>
        var body := truth(n.flights[n.races[q].flight].key);
        (rs.PeerDone? ==> AnswerTrue(rs.reply, body)) && (rs.CdnFetch? ==> AnswerTrue(rs.pull, body))
    case _ => true
  }

  lemma RequestMovesTrue(truth: Key -> Body, n: Node, m: Node)
    requires Truthful(truth, n) && m.disk == n.disk && m.flights == n.flights && m.races == n.races
    requires forall r :: 0 <= r < |m.reqs| ==> ReqTrue(truth, m.reqs[r])
    ensures Truthful(truth, m)
  {
  }

  /** One flight moves and takes at most a body it had, or a true one. */
  lemma FlightMovesTrue(truth: Key -> Body, n: Node, m: Node, f: nat)
    requires Truthful(truth, n) && m.reqs == n.reqs && m.races == n.races && f < |n.flights| == |m.flights|
    requires m.disk == n.disk && m.flights == n.flights[f := m.flights[f]]
    requires m.flights[f].key == n.flights[f].key
    requires FlightTrue(truth, n.flights[f]) ==> FlightTrue(truth, m.flights[f])
    ensures Truthful(truth, m)
  {
  }

  lemma RaceStartsTrue(truth: Key -> Body, n: Node, f: nat, target: PeerId, sticky: bool, issued: nat)
    requires Truthful(truth, n) && f < |n.flights|
    ensures Truthful(truth, StartRace(n, f, target, sticky, issued))
  {
  }

  lemma LeadsTrue(truth: Key -> Body, n: Node, r: nat)
    requires Truthful(truth, n) && r < |n.reqs|
    ensures Truthful(truth, Miss(n, r))
  {
  }

  lemma SlotPassesTrue(truth: Key -> Body, cfg: Config, n: Node)
    requires Truthful(truth, n) && (cfg.cap.Some? ==> 0 < n.used)
    ensures Truthful(truth, FreeSlot(cfg, n))
  {
    if cfg.cap.Some? && n.queue != [] && n.queue[0] < |n.flights| {
      FlightMovesTrue(truth, n, FreeSlot(cfg, n), n.queue[0]);
    }
  }

  lemma RaceAdvancesTrue(truth: Key -> Body, cfg: Config, n: Node, q: nat, rs: R.Step)
    requires Truthful(truth, n) && q < |n.races| && RaceEnabled(cfg, n, q, rs) && TrueStep(truth, n, RaceStep(q, rs))
    ensures Truthful(truth, AdvanceRace(cfg, n, q, rs))
  {
    var n1 := n.(races := n.races[q := n.races[q].(race := R.Apply(n.races[q].race, rs))],
                 c := n.c.(hedge := R.Book(n.c.hedge, n.races[q].race, rs)));
    assert RaceTrue(n1.races[q].race, truth(n.flights[n.races[q].flight].key));
    assert Truthful(truth, n1);
    if rs.CdnRelease? {
      SlotPassesTrue(truth, cfg, n1);
    }
  }

  lemma LeavesRaceTrue(truth: Key -> Body, n: Node, f: nat)
    requires Truthful(truth, n) && RacesOk(n) && RaceOver(n, f)
    ensures Truthful(truth, LeaveRace(n, f))
  {
    assert R.Inv(n.races[n.flights[f].st.race].race);
    FlightMovesTrue(truth, n, LeaveRace(n, f), f);
  }

  lemma StoresTrue(truth: Key -> Body, n: Node, f: nat, ok: bool)
    requires Truthful(truth, n) && f < |n.flights| && n.flights[f].st.Fetched?
    ensures Truthful(truth, StoreBody(n, f, ok))
  {
    var m := StoreBody(n, f, ok);
    FlightMovesTrue(truth, n, m.(disk := n.disk), f);
    assert FlightTrue(truth, n.flights[f]);
  }

  lemma AnswersTrue(truth: Key -> Body, cfg: Config, n: Node, r: nat)
    requires Truthful(truth, n) && ReqsOk(n) && Enabled(cfg, n, Wake(r))
    ensures Truthful(truth, Answer(n, r))
  {
    var f := n.reqs[r].st.flight;
    assert FlightTrue(truth, n.flights[f]);
    var m := Answer(n, r);
    assert ReqTrue(truth, m.reqs[r]);
    RequestMovesTrue(truth, n, n.(reqs := m.reqs));
  }

  lemma RequestStepTrue(truth: Key -> Body, cfg: Config, n: Node, step: Step)
    requires Truthful(truth, n) && Enabled(cfg, n, step)
    requires step.Arrive? || step.ReadHit? || step.TouchHit? || step.ServeHit?
    ensures Truthful(truth, Apply(cfg, n, step))
  {
    var m := Apply(cfg, n, step);
    forall r | 0 <= r < |m.reqs| ensures ReqTrue(truth, m.reqs[r]) {
      if r < |n.reqs| {
        assert ReqTrue(truth, n.reqs[r]);
      }
    }
    RequestMovesTrue(truth, n, m);
  }

  lemma RecordStepTrue(truth: Key -> Body, cfg: Config, n: Node, step: Step)
    requires Truthful(truth, n) && Enabled(cfg, n, step) && (step.Settle? || step.RecordStart?)
    ensures Truthful(truth, Apply(cfg, n, step))
  {
    hide Truthful;
    FlightMovesTrue(truth, n, Apply(cfg, n, step), step.f);
  }

  lemma EvictsTrue(truth: Key -> Body, cfg: Config, n: Node, step: Step)
    requires Truthful(truth, n) && Enabled(cfg, n, step) && (step.EvictPop? || step.EvictDel?)
    ensures Truthful(truth, Apply(cfg, n, step))
  {
  }

  lemma ReleaseTrue(truth: Key -> Body, cfg: Config, n: Node, f: nat)
    requires Truthful(truth, n) && Enabled(cfg, n, Release(f))
    ensures Truthful(truth, Apply(cfg, n, Release(f)))
  {
    assert FlightTrue(truth, n.flights[f]);
    var n1 := Finish(n, f, n.flights[f].st.result);
    FlightMovesTrue(truth, n, n1, f);
    SlotPassesTrue(truth, cfg, n1);
  }

  lemma SearchStepTrue(truth: Key -> Body, cfg: Config, n: Node, step: Step)
    requires Truthful(truth, n) && Enabled(cfg, n, step) && (step.Decide? || step.Probe?)
    ensures Truthful(truth, Apply(cfg, n, step))
  {
    hide Truthful;
    if step.Decide? && cfg.peers != [] && step.live {
      RaceStartsTrue(truth, n, step.f, n.sticky.value, true, 0);
    } else if step.Probe? && step.found.Some? {
      RaceStartsTrue(truth, n, step.f, step.found.value, false, step.issued);
    } else {
      FlightMovesTrue(truth, n, Apply(cfg, n, step), step.f);
    }
  }

  lemma StepKeepsTruth(truth: Key -> Body, cfg: Config, n: Node, step: Step)
    requires Shape(cfg, n) && Truthful(truth, n) && Enabled(cfg, n, step) && TrueStep(truth, n, step)
    ensures Truthful(truth, Apply(cfg, n, step))
  {
    hide Truthful, StartRace, Miss, FreeSlot, StoreBody, RaceEnabled, RacesOk, ReqsOk, LeadersOk, SingleFlight, LockOk,
         QueueOk, RaceTrue, AdvanceRace, LeaveRace, Answer;
    match step
    case Arrive(_, _) => RequestStepTrue(truth, cfg, n, step);
    case ReadHit(_) => RequestStepTrue(truth, cfg, n, step);
    case ReadMiss(r) => LeadsTrue(truth, n, r);
    case TouchHit(_) => RequestStepTrue(truth, cfg, n, step);
    case ServeHit(_) => RequestStepTrue(truth, cfg, n, step);
    case Decide(_, _) => SearchStepTrue(truth, cfg, n, step);
    case RaceStep(q, rs) => RaceAdvancesTrue(truth, cfg, n, q, rs);
    case RaceReturn(f) => LeavesRaceTrue(truth, n, f);
    case Probe(_, _, _, _) => SearchStepTrue(truth, cfg, n, step);
    case Acquire(f) => FlightMovesTrue(truth, n, Apply(cfg, n, step), f);
    case Cancel(f) => FlightMovesTrue(truth, n, Apply(cfg, n, step), f);
    case Fetch(f, _, _) => FlightMovesTrue(truth, n, Apply(cfg, n, step), f);
    case Write(f, ok) => StoresTrue(truth, n, f, ok);
    case RecordStart(_) => RecordStepTrue(truth, cfg, n, step);
    case EvictPop(_) => EvictsTrue(truth, cfg, n, step);
    case EvictDel => EvictsTrue(truth, cfg, n, step);
    case EvictEnd(_) => FlightMovesTrue(truth, n, Apply(cfg, n, step), n.lock.flight);
    case Settle(_) => RecordStepTrue(truth, cfg, n, step);
    case Release(f) => ReleaseTrue(truth, cfg, n, f);
    case Wake(r) => AnswersTrue(truth, cfg, n, r);
  }
}
