/** What the counters of a node add up to over every run (shim-go/xorb.go:152-204, shim-go/peer_fetch.go:64-75,
    shim-go/metrics.go:93-113), although they are booked at different points of a flight. */
module NodeLedger {
  import opened Types
  import opened Seqs
  import R = Race
  import opened Node
  import opened NodeShape

  /** Bytes booked as WAN or peer bytes whose leading request is still to be served. */
  function Due(fl: Flight): int {
    match fl.st
    case Fetched(body, via) => if via.ViaPlain? then 0 else |body|
    case Written(body, via) => if via.ViaPlain? then 0 else |body|
    case Recording(body, via) => if via.ViaPlain? then 0 else |body|
    case Recorded(body, via) => if via.ViaPlain? then 0 else |body|
    case Releasing(result) => if result.Ok? then |result.body| else 0
    case Finished(result) => if result.Ok? && !fl.paid then |result.body| else 0
    case _ => 0
  }

  /** 1 for a flight whose race is won but whose miss is not counted yet. */
  function Uncounted(fl: Flight): int {
    match fl.st
    case Fetched(_, via) => if via.ViaPlain? then 0 else 1
    case Written(_, via) => if via.ViaPlain? then 0 else 1
    case Recording(_, via) => if via.ViaPlain? then 0 else 1
    case Recorded(_, via) => if via.ViaPlain? then 0 else 1
    case _ => 0
  }

  function Fired(rec: RaceRec): int { R.Fired(rec.race) }
  function PeerWon(rec: RaceRec): int { R.PeerWon(rec.race) }
  function CdnWon(rec: RaceRec): int { R.CdnWon(rec.race) }
  function FirstFailed(rec: RaceRec): int { R.FirstFailed(rec.race) }
  function Wasted(rec: RaceRec): int { R.Wasted(rec.race) }

  ghost predicate BytesInv(n: Node) {
    && n.c.wan + n.c.peerBytes == n.t.leadServed + Sum(n.flights, Due) + n.t.failedBytes
    && n.t.leadServed <= n.c.served
    && n.c.hedgeCdnBytes <= n.c.wan
    && (n.t.failedWrites == 0 ==> n.t.failedBytes == 0)
  }

  ghost predicate MissInv(n: Node) {
    n.c.misses + n.t.failedWrites + Sum(n.flights, Uncounted) == n.c.peerHits + n.t.hedgeFlights + n.t.plainFlights
  }

  ghost predicate HedgeInv(n: Node) {
    && n.c.hedge.fired == Sum(n.races, Fired)
    && n.c.hedge.peerWon == Sum(n.races, PeerWon)
    && n.c.hedge.cdnWon == Sum(n.races, CdnWon)
    && n.c.hedge.wasted == Sum(n.races, Wasted)
  }

  ghost predicate Ledger(n: Node) {
    BytesInv(n) && MissInv(n) && HedgeInv(n)
  }

  // ---- one lemma per kind of change ----

  lemma SumsOfUpdate(n: Node, f: nat, fl: Flight)
    requires f < |n.flights|
    ensures Sum(n.flights[f := fl], Due) == Sum(n.flights, Due) - Due(n.flights[f]) + Due(fl)
    ensures Sum(n.flights[f := fl], Uncounted) == Sum(n.flights, Uncounted) - Uncounted(n.flights[f]) + Uncounted(fl)
  {
    SumUpdate(n.flights, f, fl, Due);
    SumUpdate(n.flights, f, fl, Uncounted);
  }

  /** A flight changes and nothing is booked. */
  lemma NothingBooked(n: Node, m: Node, f: nat)
    requires Ledger(n) && f < |n.flights| == |m.flights| && m.flights == n.flights[f := m.flights[f]]
    requires m.races == n.races && m.t == n.t
    requires m.c.(peerMisses := 0, probeTimeouts := 0) == n.c.(peerMisses := 0, probeTimeouts := 0)
    requires Due(m.flights[f]) == Due(n.flights[f]) && Uncounted(m.flights[f]) == Uncounted(n.flights[f])
    ensures Ledger(m)
  {
    SumsOfUpdate(n, f, m.flights[f]);
  }

  lemma RaceStarts(n: Node, f: nat, target: PeerId, sticky: bool, issued: nat)
    requires Ledger(n) && f < |n.flights| && (n.flights[f].st.Deciding? || n.flights[f].st.Probing?)
    ensures Ledger(StartRace(n, f, target, sticky, issued))
  {
    SumsOfUpdate(n, f, StartRace(n, f, target, sticky, issued).flights[f]);
    var rec := RaceRec(f, target, R.START);
    SumAppend(n.races, rec, Fired);
    SumAppend(n.races, rec, PeerWon);
    SumAppend(n.races, rec, CdnWon);
    SumAppend(n.races, rec, Wasted);
  }

  lemma RaceBooks(n: Node, q: nat, rs: R.Step)
    requires HedgeInv(n) && q < |n.races| && R.Inv(n.races[q].race) && R.Enabled(n.races[q].race, rs)
    ensures HedgeInv(n.(races := n.races[q := n.races[q].(race := R.Apply(n.races[q].race, rs))],
                        c := n.c.(hedge := R.Book(n.c.hedge, n.races[q].race, rs))))
  {
    var rec := n.races[q].(race := R.Apply(n.races[q].race, rs));
    SumUpdate(n.races, q, rec, Fired);
    SumUpdate(n.races, q, rec, PeerWon);
    SumUpdate(n.races, q, rec, CdnWon);
    SumUpdate(n.races, q, rec, Wasted);
    R.BookMatchesState(n.c.hedge, n.races[q].race, rs);
  }

  lemma SlotFrees(cfg: Config, n: Node)
    requires Shape(cfg, n) && Ledger(n) && (cfg.cap.Some? ==> 0 < n.used)
    ensures Ledger(FreeSlot(cfg, n))
  {
    if cfg.cap.Some? && n.queue != [] {
      var f := n.queue[0];
      assert f in n.queue;
      NothingBooked(n, FreeSlot(cfg, n), f);
    }
  }

  lemma RaceAdvancesLedger(cfg: Config, n: Node, q: nat, rs: R.Step)
    requires Shape(cfg, n) && Ledger(n) && q < |n.races| && RaceEnabled(cfg, n, q, rs)
    ensures Ledger(AdvanceRace(cfg, n, q, rs))
  {
    RaceBooks(n, q, rs);
    if rs.CdnRelease? {
      RaceReleases(cfg, n, q);
    }
  }

  lemma RaceReleases(cfg: Config, n: Node, q: nat)
    requires Shape(cfg, n) && Ledger(n) && q < |n.races| && RaceEnabled(cfg, n, q, R.CdnRelease)
    ensures Ledger(AdvanceRace(cfg, n, q, R.CdnRelease))
  {
    RaceBooks(n, q, R.CdnRelease);
    var n1 := n.(races := n.races[q := n.races[q].(race := R.Apply(n.races[q].race, R.CdnRelease))],
                 c := n.c.(hedge := R.Book(n.c.hedge, n.races[q].race, R.CdnRelease)));
    R.StepKeepsInv(n.races[q].race, R.CdnRelease);
    assert RacesOk(n1);
    SlotFrees(cfg, n1);
  }

  lemma MissLeads(n: Node, r: nat)
    requires Ledger(n) && r < |n.reqs|
    ensures Ledger(Miss(n, r))
  {
    hide Sum;
    NewFlightOwes(n.flights, Flight(n.reqs[r].key, r, Deciding, [], 0, 0, false));
  }

  lemma NewFlightOwes(flights: seq<Flight>, fl: Flight)
    requires fl.st.Deciding? && !fl.paid
    ensures Sum(flights + [fl], Due) == Sum(flights, Due) && Sum(flights + [fl], Uncounted) == Sum(flights, Uncounted)
  {
    SumAppend(flights, fl, Due);
    SumAppend(flights, fl, Uncounted);
  }

  lemma RaceWinBooks(n: Node, f: nat)
    requires Ledger(n) && RaceOver(n, f)
    ensures Ledger(LeaveRace(n, f))
  {
    SumsOfUpdate(n, f, LeaveRace(n, f).flights[f]);
  }

  lemma StoreBooks(n: Node, f: nat, ok: bool)
    requires Ledger(n) && f < |n.flights| && n.flights[f].st.Fetched? && LeadersOk(n)
    ensures Ledger(StoreBody(n, f, ok))
  {
    var m := StoreBody(n, f, ok);
    if ok || n.flights[f].st.via.ViaPlain? {
      NothingBooked(n, m, f);
    } else {
      SumsOfUpdate(n, f, n.flights[f].(st := Finished(Err(500))));
    }
  }

  lemma SettleBooks(n: Node, f: nat)
    requires Ledger(n) && f < |n.flights| && n.flights[f].st.Recorded? && LeadersOk(n)
    ensures Ledger(Settled(n, f))
  {
    hide Sum;
    SumsOfUpdate(n, f, Settled(n, f).flights[f]);
  }

  lemma LeaderPaid(n: Node, f: nat, served: nat)
    requires Ledger(n) && f < |n.flights| && n.flights[f].st.Finished? && !n.flights[f].paid
    requires served == Due(n.flights[f])
    ensures Ledger(n.(flights := n.flights[f := n.flights[f].(paid := true)],
                      c := n.c.(served := n.c.served + served),
                      t := n.t.(leadServed := n.t.leadServed + served)))
  {
    SumsOfUpdate(n, f, n.flights[f].(paid := true));
  }

  lemma AnswerBooks(n: Node, r: nat)
    requires LeadersOk(n) && Ledger(n)
    requires r < |n.reqs| && n.reqs[r].st.Waiting? && n.reqs[r].st.flight < |n.flights|
    requires n.flights[n.reqs[r].st.flight].st.Finished?
    ensures Ledger(Answer(n, r))
  {
    var f := n.reqs[r].st.flight;
    if n.flights[f].leader == r {
      assert !n.flights[f].paid;
      LeaderPaid(n, f, Due(n.flights[f]));
    }
  }

  lemma ReleaseBooks(cfg: Config, n: Node, f: nat)
    requires Shape(cfg, n) && Ledger(n) && f < |n.flights| && n.flights[f].st.Releasing?
    requires cfg.cap.Some? ==> 0 < n.used
    ensures Ledger(FreeSlot(cfg, Finish(n, f, n.flights[f].st.result)))
  {
    var result := n.flights[f].st.result;
    NothingBooked(n, Finish(n, f, result), f);
    FlightFinishes(cfg, n, f, result);
    SlotFrees(cfg, Finish(n, f, result));
  }

  lemma FlightStepBooksNothing(cfg: Config, n: Node, step: Step)
    requires Ledger(n) && Enabled(cfg, n, step)
    requires step.Acquire? || step.Cancel? || step.Fetch? || step.RecordStart?
    ensures Ledger(Apply(cfg, n, step))
  {
    hide Ledger;
    NothingBooked(n, Apply(cfg, n, step), step.f);
  }

  lemma EvictEndBooksNothing(cfg: Config, n: Node, low: bool)
    requires Ledger(n) && Enabled(cfg, n, EvictEnd(low))
    ensures Ledger(Apply(cfg, n, EvictEnd(low)))
  {
    NothingBooked(n, Apply(cfg, n, EvictEnd(low)), n.lock.flight);
  }

  lemma DecideBooks(cfg: Config, n: Node, f: nat, live: bool)
    requires Ledger(n) && Enabled(cfg, n, Decide(f, live))
    ensures Ledger(Apply(cfg, n, Decide(f, live)))
  {
    if cfg.peers != [] && live {
      RaceStarts(n, f, n.sticky.value, true, 0);
    } else {
      NothingBooked(n, Apply(cfg, n, Decide(f, live)), f);
    }
  }

  lemma ProbeBooks(n: Node, f: nat, timedOut: bool, issued: nat)
    requires Ledger(n) && f < |n.flights| && n.flights[f].st.Probing?
    ensures Ledger(ProbeFailed(n, f, timedOut, issued))
  {
    NothingBooked(n, ProbeFailed(n, f, timedOut, issued), f);
  }

  lemma QuietStepBooksNothing(cfg: Config, n: Node, step: Step)
    requires Ledger(n) && Enabled(cfg, n, step)
    requires step.Arrive? || step.ReadHit? || step.TouchHit? || step.ServeHit? || step.EvictPop? || step.EvictDel?
    ensures Ledger(Apply(cfg, n, step))
  {
  }

  lemma StepKeepsLedger(cfg: Config, n: Node, step: Step)
    requires Shape(cfg, n) && Ledger(n) && Enabled(cfg, n, step)
    ensures Ledger(Apply(cfg, n, step))
  {
    hide BytesInv, MissInv, HedgeInv;
    match step
    case Arrive(_, _) => QuietStepBooksNothing(cfg, n, step);
    case ReadHit(_) => QuietStepBooksNothing(cfg, n, step);
    case ReadMiss(r) => MissLeads(n, r);
    case TouchHit(_) => QuietStepBooksNothing(cfg, n, step);
    case ServeHit(_) => QuietStepBooksNothing(cfg, n, step);
    case Decide(f, live) => DecideBooks(cfg, n, f, live);
    case RaceStep(q, rs) => RaceAdvancesLedger(cfg, n, q, rs);
    case RaceReturn(f) => RaceWinBooks(n, f);
    case Probe(f, found, timedOut, issued) =>
      if found.Some? {
        RaceStarts(n, f, found.value, false, issued);
      } else {
        ProbeBooks(n, f, timedOut, issued);
      }
    case Acquire(_) => FlightStepBooksNothing(cfg, n, step);
    case Cancel(_) => FlightStepBooksNothing(cfg, n, step);
    case Fetch(_, _, _) => FlightStepBooksNothing(cfg, n, step);
    case Write(f, ok) => StoreBooks(n, f, ok);
    case RecordStart(_) => FlightStepBooksNothing(cfg, n, step);
    case EvictPop(_) => QuietStepBooksNothing(cfg, n, step);
    case EvictDel => QuietStepBooksNothing(cfg, n, step);
    case EvictEnd(low) => EvictEndBooksNothing(cfg, n, low);
    case Settle(f) => SettleBooks(n, f);
    case Release(f) => ReleaseBooks(cfg, n, f);
    case Wake(r) => AnswerBooks(n, r);
  }

  lemma {:induction false} RunKeepsLedger(cfg: Config, first: Node, steps: seq<Step>, n: Node)
    requires Run(cfg, first, steps, n)
    ensures Shape(cfg, n) && Ledger(n)
    decreases |steps|
  {
    if steps != [] {
      var before, last := steps[..|steps| - 1], steps[|steps| - 1];
      var m :| Run(cfg, first, before, m) && Enabled(cfg, m, last) && n == Apply(cfg, m, last);
      RunKeepsLedger(cfg, first, before, m);
      StepKeepsShape(cfg, m, last);
      StepKeepsLedger(cfg, m, last);
    }
  }

  // ---- the ledger of a node at rest ----

  lemma RestSettles(cfg: Config, n: Node)
    requires Shape(cfg, n) && AtRest(n)
    ensures Sum(n.flights, Due) == 0 && Sum(n.flights, Uncounted) == 0
  {
    forall fl | fl in n.flights ensures Due(fl) == 0 && Uncounted(fl) == 0 {
      var f :| 0 <= f < |n.flights| && n.flights[f] == fl;
      assert n.flights[f].paid;
    }
    SumZero(n.flights, Due);
    SumZero(n.flights, Uncounted);
  }

  /** Conservation, over every run and with any number of requests sharing each flight. */
  lemma Conservation(cfg: Config, first: Node, steps: seq<Step>, n: Node)
    requires Run(cfg, first, steps, n) && AtRest(n)
    ensures n.c.served + n.t.failedBytes >= n.c.wan + n.c.peerBytes
    ensures n.c.misses + n.t.failedWrites == n.c.peerHits + n.t.hedgeFlights + n.t.plainFlights
    ensures n.c.hedgeCdnBytes <= n.c.wan
  {
    RunKeepsLedger(cfg, first, steps, n);
    RestSettles(cfg, n);
  }

  /** effective_hit_rate = (hits + peer_hits) / (hits + misses), before rounding (shim-go/metrics.go:104-111). */
  function EffectiveHitRate(c: Counters): real {
    var total := c.hits + c.misses;
    if total > 0 then (c.hits + c.peerHits) as real / total as real else 0.0
  }

  lemma RatioAtMostOne(a: nat, b: nat)
    requires 0 < b
    ensures a as real / b as real <= 1.0 <==> a <= b
  {
    if a as real / b as real <= 1.0 {
      assert a as real == (a as real / b as real) * b as real;
    }
  }

  /** The derived gauges of a node at rest. Bytes saved are at least the peer bytes when no write of a
      race-won body failed. The effective hit rate exceeds 1 exactly when failed writes outnumber
      the flights the CDN won, unless nothing was counted at all. */
  lemma DerivedGauges(cfg: Config, first: Node, steps: seq<Step>, n: Node)
    requires Run(cfg, first, steps, n) && AtRest(n)
    ensures n.t.failedWrites == 0 ==> n.c.served - n.c.wan >= n.c.peerBytes
    ensures n.t.failedWrites == 0 ==> EffectiveHitRate(n.c) <= 1.0
    ensures EffectiveHitRate(n.c) <= 1.0 <==>
            n.c.hits + n.c.misses == 0 || n.t.failedWrites <= n.t.hedgeFlights + n.t.plainFlights
  {
    Conservation(cfg, first, steps, n);
    RateOfCounts(n.c, n.t);
    if n.t.failedWrites == 0 {
      RunKeepsLedger(cfg, first, steps, n);
    }
  }

  lemma RateOfCounts(c: Counters, t: Tally)
    requires c.misses + t.failedWrites == c.peerHits + t.hedgeFlights + t.plainFlights
    ensures EffectiveHitRate(c) <= 1.0 <==> c.hits + c.misses == 0 || t.failedWrites <= t.hedgeFlights + t.plainFlights
  {
    if c.hits + c.misses > 0 {
      RatioAtMostOne(c.hits + c.peerHits, c.hits + c.misses);
    }
  }

  // ---- the hedges ----

  /** The bytes the CDN side had read in a race that the peer won after the hedge. */
  function LoserBytes(rec: RaceRec): int {
    if rec.race.drain.NoDrain? || !rec.race.cdn.CdnSent? then 0 else rec.race.cdn.answer.bytes
  }

  lemma {:induction false} HedgesSplit(races: seq<RaceRec>)
    requires forall rec :: rec in races ==> R.Inv(rec.race) && !rec.race.main.Hedged?
    ensures Sum(races, Fired) == Sum(races, PeerWon) + Sum(races, CdnWon) + Sum(races, FirstFailed)
  {
    if races != [] {
      R.HedgeAccounts(races[0].race);
      HedgesSplit(races[1..]);
    }
  }

  lemma {:induction false} WasteIsLoserBytes(races: seq<RaceRec>)
    requires forall rec :: rec in races ==> !rec.race.drain.Draining?
    ensures Sum(races, Wasted) == Sum(races, LoserBytes)
  {
    if races != [] {
      WasteIsLoserBytes(races[1..]);
    }
  }

  /** Once no race is undecided, every hedge fired is a peer win, a CDN win or a race whose first finisher
      failed; once the drains are done, the wasted bytes are exactly those the losing CDN pulls had read. */
  lemma HedgeAccounting(cfg: Config, first: Node, steps: seq<Step>, n: Node)
    requires Run(cfg, first, steps, n)
    ensures (forall rec :: rec in n.races ==> !rec.race.main.Hedged?) ==>
              n.c.hedge.fired == n.c.hedge.peerWon + n.c.hedge.cdnWon + Sum(n.races, FirstFailed)
    ensures (forall rec :: rec in n.races ==> !rec.race.drain.Draining?) ==>
              n.c.hedge.wasted == Sum(n.races, LoserBytes)
  {
    RunKeepsLedger(cfg, first, steps, n);
    forall rec | rec in n.races ensures R.Inv(rec.race) {
      var q :| 0 <= q < |n.races| && n.races[q] == rec;
    }
    if forall rec :: rec in n.races ==> !rec.race.main.Hedged? {
      HedgesSplit(n.races);
    }
    if forall rec :: rec in n.races ==> !rec.race.drain.Draining? {
      WasteIsLoserBytes(n.races);
    }
  }
}
