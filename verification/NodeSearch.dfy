/** When a flight's search among the peers ends without a body (shim-go/peer_fetch.go:14-49, shim-go/xorb.go:138-176):
    exactly when every race it ran was lost. */
module NodeSearch {
  import opened Types
  import R = Race
  import opened Node
  import opened NodeShape
  import opened NodeLosers

  predicate Plain(st: FlightState) {
    || st.PlainStart? || st.Queued? || st.Holding? || st.Releasing?
    || (HasBody(st) && st.via.ViaPlain?)
  }

  predicate HasBody(st: FlightState) {
    st.Fetched? || st.Written? || st.Recording? || st.Recorded?
  }

  /** fetchFromPeer has returned and the flight goes on. */
  predicate SearchOver(st: FlightState) {
    !st.Deciding? && !st.InRace? && !st.Probing? && !st.Finished?
  }

  /** The race that gave the flight its body. */
  predicate Won(race: R.Race, body: Body, via: Via) {
    && race.main.Returned? && race.main.ok && race.main.body == body
    && (via.ViaPeer? <==> race.main.src.SrcPeer?)
  }

  /** The races of the list were lost, save the last when the flight is in it or has its body from it. */
  predicate SearchOk(races: seq<RaceRec>, fl: Flight) {
    && (forall i :: 0 <= i < |fl.races| ==> fl.races[i] < |races|)
    && (fl.st.Deciding? ==> fl.races == [])
    && (fl.st.InRace? ==> LastIs(fl.races, fl.st.race) && AllLost(races, fl.races[..|fl.races| - 1]))
    && (ByRace(fl.st) ==> WonLast(races, fl))
    && (fl.st.Probing? || Plain(fl.st) ==> AllLost(races, fl.races))
  }

  predicate LastIs(qs: seq<nat>, q: nat) { qs != [] && qs[|qs| - 1] == q }

  predicate ByRace(st: FlightState) { HasBody(st) && !st.via.ViaPlain? }

  predicate WonLast(races: seq<RaceRec>, fl: Flight)
    requires ByRace(fl.st)
  {
    && fl.races != [] && fl.races[|fl.races| - 1] < |races|
    && Won(races[fl.races[|fl.races| - 1]].race, fl.st.body, fl.st.via)
    && AllLost(races, fl.races[..|fl.races| - 1])
  }

  predicate AllLost(races: seq<RaceRec>, qs: seq<nat>) {
    forall i :: 0 <= i < |qs| ==> qs[i] < |races| && Lost(races[qs[i]].race)
  }

  ghost predicate SearchesOk(n: Node) {
    forall f :: 0 <= f < |n.flights| ==> SearchOk(n.races, n.flights[f])
  }

  // ---- one lemma per kind of change ----

  /** One flight's entry changes. */
  lemma FlightChanges(n: Node, m: Node, f: nat)
    requires SearchesOk(n) && m.races == n.races && f < |n.flights| == |m.flights|
    requires m.flights == n.flights[f := m.flights[f]] && SearchOk(n.races, m.flights[f])
    ensures SearchesOk(m)
  {
    hide SearchOk;
  }

  /** The flight moves on without touching its list, from one state that leaves all races lost to another. */
  predicate SearchedInVain(st: FlightState) {
    st.Deciding? || st.Probing? || Plain(st)
  }

  lemma PlainMoves(n: Node, m: Node, f: nat)
    requires SearchesOk(n) && m.races == n.races && f < |n.flights| == |m.flights|
    requires m.flights == n.flights[f := m.flights[f]] && m.flights[f].races == n.flights[f].races
    requires SearchedInVain(n.flights[f].st)
    requires m.flights[f].st.Finished? || m.flights[f].st.Probing? || Plain(m.flights[f].st)
    ensures SearchesOk(m)
  {
    assert SearchOk(n.races, n.flights[f]);
    assert SearchOk(n.races, m.flights[f]);
    FlightChanges(n, m, f);
  }

  /** A flight with a body goes on with it, or ends. */
  lemma BodyMoves(n: Node, m: Node, f: nat)
    requires SearchesOk(n) && m.races == n.races && f < |n.flights| == |m.flights|
    requires m.flights == n.flights[f := m.flights[f]] && m.flights[f].races == n.flights[f].races
    requires HasBody(n.flights[f].st)
    requires var st, st' := n.flights[f].st, m.flights[f].st;
             || st'.Finished? || (st'.Releasing? && st.via.ViaPlain?)
             || (HasBody(st') && st'.body == st.body && st'.via == st.via)
    ensures SearchesOk(m)
  {
    assert SearchOk(n.races, n.flights[f]);
    assert SearchOk(n.races, m.flights[f]);
    FlightChanges(n, m, f);
  }

  lemma EndMoves(n: Node, m: Node, f: nat)
    requires SearchesOk(n) && m.races == n.races && f < |n.flights| == |m.flights|
    requires m.flights == n.flights[f := m.flights[f]] && m.flights[f].races == n.flights[f].races
    requires m.flights[f].st.Finished?
    ensures SearchesOk(m)
  {
    assert SearchOk(n.races, n.flights[f]);
    FlightChanges(n, m, f);
  }

  lemma SameFlights(n: Node, m: Node)
    requires SearchesOk(n) && m.races == n.races && m.flights == n.flights
    ensures SearchesOk(m)
  {
  }

  lemma LostStay(races: seq<RaceRec>, q: nat, rs: R.Step, qs: seq<nat>)
    requires q < |races| && R.Enabled(races[q].race, rs) && AllLost(races, qs)
    ensures AllLost(races[q := races[q].(race := R.Apply(races[q].race, rs))], qs)
  {
    if Lost(races[q].race) {
      ReturnedStays(races[q].race, rs);
    }
  }

  lemma RaceStepSearch(races: seq<RaceRec>, q: nat, rs: R.Step, fl: Flight)
    requires q < |races| && R.Enabled(races[q].race, rs) && SearchOk(races, fl)
    ensures SearchOk(races[q := races[q].(race := R.Apply(races[q].race, rs))], fl)
  {
    hide R.Apply, R.Enabled, AllLost;
    if AllLost(races, fl.races) {
      LostStay(races, q, rs, fl.races);
    }
    if fl.races != [] && AllLost(races, fl.races[..|fl.races| - 1]) {
      LostStay(races, q, rs, fl.races[..|fl.races| - 1]);
    }
    if races[q].race.main.Returned? {
      ReturnedStays(races[q].race, rs);
    }
  }

  lemma SlotHanded(cfg: Config, n: Node)
    requires SearchesOk(n) && QueueOk(cfg, n) && (cfg.cap.Some? ==> 0 < n.used)
    ensures SearchesOk(FreeSlot(cfg, n))
  {
    if cfg.cap.Some? && n.queue != [] {
      assert n.queue[0] in n.queue;
      hide SearchesOk;
      PlainMoves(n, FreeSlot(cfg, n), n.queue[0]);
    }
  }

  lemma RaceAdvances(cfg: Config, n: Node, q: nat, rs: R.Step)
    requires SearchesOk(n) && QueueOk(cfg, n) && q < |n.races| && RaceEnabled(cfg, n, q, rs)
    ensures SearchesOk(AdvanceRace(cfg, n, q, rs))
  {
    hide SearchOk, R.Apply, R.Book;
    var n1 := n.(races := n.races[q := n.races[q].(race := R.Apply(n.races[q].race, rs))],
                 c := n.c.(hedge := R.Book(n.c.hedge, n.races[q].race, rs)));
    forall f | 0 <= f < |n1.flights| ensures SearchOk(n1.races, n1.flights[f]) {
      RaceStepSearch(n.races, q, rs, n.flights[f]);
    }
    if rs.CdnRelease? {
      SlotHanded(cfg, n1);
    } else {
      SameFlights(n1, AdvanceRace(cfg, n, q, rs));
    }
  }

  lemma ListGrows(races: seq<RaceRec>, more: RaceRec, fl: Flight)
    requires SearchOk(races, fl)
    ensures SearchOk(races + [more], fl)
  {
  }

  lemma RaceOpens(n: Node, f: nat, target: PeerId, sticky: bool, issued: nat)
    requires SearchesOk(n) && f < |n.flights| && (n.flights[f].st.Deciding? || n.flights[f].st.Probing?)
    ensures SearchesOk(StartRace(n, f, target, sticky, issued))
  {
    var m := StartRace(n, f, target, sticky, issued);
    var fl := n.flights[f];
    assert SearchOk(n.races, fl) && AllLost(n.races, fl.races);
    assert m.flights[f].races[..|fl.races|] == fl.races;
    assert SearchOk(m.races, m.flights[f]);
    forall g | 0 <= g < |m.flights| ensures SearchOk(m.races, m.flights[g]) {
      if g != f {
        ListGrows(n.races, m.races[|n.races|], n.flights[g]);
      }
    }
  }

  /** A win is the last race's body; a loss leaves every race of the list lost. */
  lemma SearchAfterRace(n: Node, f: nat)
    requires RaceOver(n, f) && SearchOk(n.races, n.flights[f])
    ensures SearchOk(n.races, LeaveRace(n, f).flights[f])
  {
    var fl := n.flights[f];
    assert fl.races == fl.races[..|fl.races| - 1] + [fl.st.race];
  }

  lemma RaceCloses(n: Node, f: nat)
    requires SearchesOk(n) && RaceOver(n, f)
    ensures SearchesOk(LeaveRace(n, f))
  {
    SearchAfterRace(n, f);
    hide SearchOk;
    FlightChanges(n, LeaveRace(n, f), f);
  }

  lemma LeadSearches(n: Node, r: nat)
    requires SearchesOk(n) && r < |n.reqs|
    ensures SearchesOk(Miss(n, r))
  {
  }

  // ---- every step ----

  lemma PlainStep(cfg: Config, n: Node, step: Step)
    requires SearchesOk(n) && Enabled(cfg, n, step) && (step.Acquire? || step.Fetch?)
    ensures SearchesOk(Apply(cfg, n, step))
  {
    hide SearchesOk;
    PlainMoves(n, Apply(cfg, n, step), step.f);
  }

  lemma CancelStep(cfg: Config, n: Node, f: nat)
    requires SearchesOk(n) && Enabled(cfg, n, Cancel(f))
    ensures SearchesOk(Apply(cfg, n, Cancel(f)))
  {
    hide SearchesOk;
    EndMoves(n, Apply(cfg, n, Cancel(f)), f);
  }

  lemma StoreStep(cfg: Config, n: Node, step: Step)
    requires SearchesOk(n) && Enabled(cfg, n, step) && (step.Write? || step.RecordStart? || step.Settle?)
    ensures SearchesOk(Apply(cfg, n, step))
  {
    hide SearchesOk;
    BodyMoves(n, Apply(cfg, n, step), step.f);
  }

  lemma ReleaseStep(cfg: Config, n: Node, f: nat)
    requires QueueOk(cfg, n) && SearchesOk(n) && Enabled(cfg, n, Release(f))
    ensures SearchesOk(Apply(cfg, n, Release(f)))
  {
    hide SearchOk, SearchesOk;
    var ended := Finish(n, f, n.flights[f].st.result);
    EndMoves(n, ended, f);
    forall g: nat ensures g in ended.queue <==> g < |ended.flights| && ended.flights[g].st.Queued? {
    }
    SlotHanded(cfg, ended);
  }

  lemma AnswerStep(cfg: Config, n: Node, r: nat)
    requires SearchesOk(n) && Enabled(cfg, n, Wake(r))
    ensures SearchesOk(Answer(n, r))
  {
    hide SearchesOk;
    EndMoves(n, Answer(n, r), n.reqs[r].st.flight);
  }

  lemma StepKeepsSearch(cfg: Config, n: Node, step: Step)
    requires Shape(cfg, n) && SearchesOk(n) && Enabled(cfg, n, step)
    ensures SearchesOk(Apply(cfg, n, step))
  {
    hide SearchesOk, Miss, AdvanceRace, FreeSlot, LeaveRace, RaceEnabled, Answer, ReqsOk, LeadersOk, SingleFlight,
         RacesOk, QueueOk;
    var m := Apply(cfg, n, step);
    match step
    case Arrive(_, _) => SameFlights(n, m);
    case ReadHit(_) => SameFlights(n, m);
    case ReadMiss(r) => LeadSearches(n, r);
    case TouchHit(_) => SameFlights(n, m);
    case ServeHit(_) => SameFlights(n, m);
    case Decide(f, live) =>
      if cfg.peers != [] && live {
        RaceOpens(n, f, n.sticky.value, true, 0);
      } else {
        PlainMoves(n, m, f);
      }
    case RaceStep(q, rs) => RaceAdvances(cfg, n, q, rs);
    case RaceReturn(f) => RaceCloses(n, f);
    case Probe(f, found, _, issued) =>
      if found.Some? {
        RaceOpens(n, f, found.value, false, issued);
      } else {
        PlainMoves(n, m, f);
      }
    case Acquire(_) => PlainStep(cfg, n, step);
    case Cancel(f) => CancelStep(cfg, n, f);
    case Fetch(_, _, _) => PlainStep(cfg, n, step);
    case Write(_, _) => StoreStep(cfg, n, step);
    case RecordStart(_) => StoreStep(cfg, n, step);
    case EvictPop(_) => SameFlights(n, m);
    case EvictDel => SameFlights(n, m);
    case EvictEnd(_) => BodyMoves(n, m, n.lock.flight);
    case Settle(_) => StoreStep(cfg, n, step);
    case Release(f) => ReleaseStep(cfg, n, f);
    case Wake(r) => AnswerStep(cfg, n, r);
  }

  lemma {:induction false} RunKeepsSearch(cfg: Config, first: Node, steps: seq<Step>, n: Node)
    requires Run(cfg, first, steps, n)
    ensures Shape(cfg, n) && SearchesOk(n)
    decreases |steps|
  {
    if steps != [] {
      var before, last := steps[..|steps| - 1], steps[|steps| - 1];
      var m :| Run(cfg, first, before, m) && Enabled(cfg, m, last) && n == Apply(cfg, m, last);
      hide SearchesOk, Apply, Enabled, Shape;
      RunKeepsSearch(cfg, first, before, m);
      StepKeepsShape(cfg, m, last);
      StepKeepsSearch(cfg, m, last);
    }
  }

  // ---- what the search promises ----

  /** Neither side of the race delivered: the peer failed, and the hedge was never fired or failed too. */
  predicate NeitherDelivered(race: R.Race) {
    race.peer.PeerSent? && !race.peer.answer.ok && (race.cdn.CdnIdle? || (race.cdn.CdnSent? && !race.cdn.answer.ok))
  }

  lemma LostIsNeither(race: R.Race)
    requires R.Inv(race) && race.main.Returned?
    ensures Lost(race) <==> NeitherDelivered(race)
  {
  }

  lemma LostAreNeither(races: seq<RaceRec>, qs: seq<nat>)
    requires forall i :: 0 <= i < |qs| ==> qs[i] < |races|
    requires forall i :: 0 <= i < |qs| ==> R.Inv(races[qs[i]].race) && races[qs[i]].race.main.Returned?
    ensures AllLost(races, qs) <==> forall i :: 0 <= i < |qs| ==> NeitherDelivered(races[qs[i]].race)
  {
    forall i | 0 <= i < |qs| ensures Lost(races[qs[i]].race) <==> NeitherDelivered(races[qs[i]].race) {
      LostIsNeither(races[qs[i]].race);
    }
  }

  lemma SearchEnded(races: seq<RaceRec>, fl: Flight)
    requires SearchOk(races, fl) && SearchOver(fl.st)
    ensures Plain(fl.st) <==> AllLost(races, fl.races)
    ensures !Plain(fl.st) <==> ByRace(fl.st)
    ensures forall i :: 0 <= i < |fl.races| ==> races[fl.races[i]].race.main.Returned?
  {
    if ByRace(fl.st) {
      forall i | 0 <= i < |fl.races| - 1 ensures races[fl.races[i]].race.main.Returned? {
        assert fl.races[..|fl.races| - 1][i] == fl.races[i];
      }
    }
  }

  /** In every reachable state a flight that has left the peer search unfinished is on the plain path if and only if
      neither side delivered in any race it ran; otherwise it has the body its last race won, and lost the others. */
  lemma GivesUpExactly(cfg: Config, first: Node, steps: seq<Step>, n: Node, f: nat)
    requires Run(cfg, first, steps, n) && f < |n.flights| && SearchOver(n.flights[f].st)
    ensures forall i :: 0 <= i < |n.flights[f].races| ==> n.flights[f].races[i] < |n.races|
    ensures Plain(n.flights[f].st) <==>
            forall i :: 0 <= i < |n.flights[f].races| ==> NeitherDelivered(n.races[n.flights[f].races[i]].race)
    ensures !Plain(n.flights[f].st) ==> ByRace(n.flights[f].st) && WonLast(n.races, n.flights[f])
  {
    RunKeepsSearch(cfg, first, steps, n);
    hide Run, ReqsOk, LeadersOk, SingleFlight, LockOk, QueueOk, R.Inv, Plain, AllLost, NeitherDelivered, WonLast;
    var fl := n.flights[f];
    assert SearchOk(n.races, fl);
    SearchEnded(n.races, fl);
    LostAreNeither(n.races, fl.races);
  }
}
