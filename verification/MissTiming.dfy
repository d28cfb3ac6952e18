/** The whole miss path on one clock (shim-go/peer_fetch.go:14-49, shim-go/xorb.go:153-193): a race against the
    sticky peer, a probe, a race against the peer it found and a plain CDN pull, each begun at the instant the one
    before it gives up. */
module MissTiming {
  import opened Types
  import Race
  import opened RaceTiming
  import PeerStats

  /** What one flight meets: sticky is absent when no pointer is live, found when the probe turns up no peer. */
  datatype Trip = Trip(
    sticky: Option<Env>,
    probeFor: real,              // how long the probe takes
    found: Option<Env>,
    plainFor: real               // how long the plain pull takes, its wait for a slot included
  )

  datatype Phase =
    | AtStart
    | InSticky(began: real, race: Timed)
    | Probing(began: real)
    | InFanout(began: real, race: Timed)
    | Pulling(began: real)
    | Served(at: real)

  datatype Flight = Flight(clock: real, phase: Phase)

  const DEPART := Flight(0.0, AtStart)

  /** The race goes on: one of its steps, or a wait no longer than its next event. */
  ghost predicate RaceMoves(env: Env, t: Timed, u: Timed) {
    t.returnedAt.None? && (Acts(env, t, u) || Waits(env, t, u))
  }

  /** fetchFromPeer and the plain path behind it, one move at a time. */
  ghost predicate Moves(trip: Trip, a: Flight, b: Flight) {
    match a.phase
    case AtStart =>
      b == Flight(a.clock, if trip.sticky.Some? then InSticky(a.clock, BEGIN) else Probing(a.clock))
    case InSticky(began, t) =>
      && trip.sticky.Some?
      && if t.returnedAt.None? then
           b.phase.InSticky? && RaceMoves(trip.sticky.value, t, b.phase.race)
           && b == Flight(began + b.phase.race.now, InSticky(began, b.phase.race))
         else b == Flight(a.clock, if Gave(t) then Served(a.clock) else Probing(a.clock))
    case Probing(began) =>
      || Passes(a, b, began + trip.probeFor)
      || (a.clock == began + trip.probeFor
          && b == Flight(a.clock, if trip.found.Some? then InFanout(a.clock, BEGIN) else Pulling(a.clock)))
    case InFanout(began, t) =>
      && trip.found.Some?
      && if t.returnedAt.None? then
           b.phase.InFanout? && RaceMoves(trip.found.value, t, b.phase.race)
           && b == Flight(began + b.phase.race.now, InFanout(began, b.phase.race))
         else b == Flight(a.clock, if Gave(t) then Served(a.clock) else Pulling(a.clock))
    case Pulling(began) =>
      || Passes(a, b, began + trip.plainFor)
      || (a.clock == began + trip.plainFor && b == Flight(a.clock, Served(a.clock)))
    case Served(_) => false
  }

  predicate Gave(t: Timed) { t.race.main.Returned? && t.race.main.ok }

  /** Time passes, up to the given instant at most. */
  predicate Passes(a: Flight, b: Flight, until: real) {
    a.clock < b.clock <= until && b.phase == a.phase
  }

  ghost predicate Reaches(trip: Trip, steps: nat, a: Flight)
    decreases steps
  {
    if steps == 0 then a == DEPART
    else exists b :: Reaches(trip, steps - 1, b) && Moves(trip, b, a)
  }

  // ---- a healthy CDN ----

  /** A race whose head start is the one the statistics predict, with a free slot and a CDN that answers within c. */
  ghost predicate HealthyRace(env: Env, hedgeMaxMs: int, c: real) {
    && ValidEnv(env) && env.slot && env.pull.ok && env.pullFor.Some? && env.pullFor.value <= c
    && exists estimate, size, factor, minMs ::
         env.delay == PeerStats.DelayMs(estimate, size, factor, minMs, hedgeMaxMs) as real
  }

  ghost predicate Healthy(trip: Trip, hedgeMaxMs: int, probeTimeout: real, c: real) {
    && (trip.sticky.Some? ==> HealthyRace(trip.sticky.value, hedgeMaxMs, c))
    && (trip.found.Some? ==> HealthyRace(trip.found.value, hedgeMaxMs, c))
    && 0.0 <= trip.probeFor <= probeTimeout && 0.0 <= trip.plainFor <= c
  }

  ghost predicate ReachedBy(env: Env, t: Timed) {
    exists steps: nat :: Reached(env, steps, t)
  }

  /** A race under way at this clock; it is left at the instant it returns. */
  ghost predicate Underway(env: Env, began: real, t: Timed, clock: real) {
    && ReachedBy(env, t) && clock == began + t.now
    && (t.returnedAt.Some? ==> t.returnedAt == Some(t.now))
  }

  /** A race under way is over by h + c, and by h when it was lost. */
  lemma RaceBound(env: Env, t: Timed, hedgeMaxMs: int, c: real)
    requires HealthyRace(env, hedgeMaxMs, c) && ReachedBy(env, t)
    requires t.returnedAt.Some? ==> t.returnedAt == Some(t.now)
    ensures 0.0 <= t.now <= hedgeMaxMs as real + c
    ensures t.returnedAt.Some? && !Gave(t) ==> t.now <= hedgeMaxMs as real
  {
    var steps: nat :| Reached(env, steps, t);
    var estimate, size, factor, minMs :|
      env.delay == PeerStats.DelayMs(estimate, size, factor, minMs, hedgeMaxMs) as real;
    PeerStats.DelayBounds(estimate, size, factor, minMs, hedgeMaxMs);
    ReachedOnTime(env, steps, t);
    HedgeGuarantee(env, steps, t);
  }

  lemma RaceMovesOn(env: Env, began: real, t: Timed, clock: real, u: Timed)
    requires Underway(env, began, t, clock) && RaceMoves(env, t, u)
    ensures Underway(env, began, u, began + u.now)
  {
    var steps: nat :| Reached(env, steps, t);
    assert Reached(env, steps + 1, u);
  }

  lemma RaceSetsOut(env: Env, began: real)
    ensures Underway(env, began, BEGIN, began)
  {
    assert Reached(env, 0, BEGIN);
  }

  /** Each phase begins by the instant the earlier ones are over at the latest. */
  ghost predicate OnSchedule(trip: Trip, a: Flight, h: real, p: real, c: real) {
    match a.phase
    case AtStart => a.clock == 0.0
    case InSticky(began, t) => trip.sticky.Some? && began == 0.0 && Underway(trip.sticky.value, began, t, a.clock)
    case Probing(began) => 0.0 <= began <= h && began <= a.clock <= began + trip.probeFor
    case InFanout(began, t) =>
      trip.found.Some? && 0.0 <= began <= h + p && Underway(trip.found.value, began, t, a.clock)
    case Pulling(began) => 0.0 <= began <= 2.0 * h + p && began <= a.clock <= began + trip.plainFor
    case Served(at) => a.clock == at && 0.0 <= at <= 2.0 * h + p + c
  }

  lemma MoveKeepsSchedule(trip: Trip, a: Flight, b: Flight, hedgeMaxMs: nat, p: real, c: real)
    requires Healthy(trip, hedgeMaxMs, p, c) && Moves(trip, a, b) && OnSchedule(trip, a, hedgeMaxMs as real, p, c)
    ensures OnSchedule(trip, b, hedgeMaxMs as real, p, c)
  {
    hide Underway, HealthyRace, RaceMoves, Race.Inv;
    match a.phase
    case AtStart => if trip.sticky.Some? { RaceSetsOut(trip.sticky.value, a.clock); }
    case InSticky(began, t) => RacePhase(trip.sticky.value, began, t, a.clock, b.phase, hedgeMaxMs, c);
    case Probing(_) => if trip.found.Some? { RaceSetsOut(trip.found.value, a.clock); }
    case InFanout(began, t) => RacePhase(trip.found.value, began, t, a.clock, b.phase, hedgeMaxMs, c);
    case Pulling(_) =>
  }

  lemma RacePhase(env: Env, began: real, t: Timed, clock: real, next: Phase, hedgeMaxMs: nat, c: real)
    requires HealthyRace(env, hedgeMaxMs, c) && Underway(env, began, t, clock)
    ensures began <= clock <= began + hedgeMaxMs as real + c
    ensures t.returnedAt.Some? && !Gave(t) ==> clock <= began + hedgeMaxMs as real
    ensures (next.InSticky? || next.InFanout?) && RaceMoves(env, t, next.race) ==>
              Underway(env, began, next.race, began + next.race.now)
  {
    RaceBound(env, t, hedgeMaxMs, c);
    if (next.InSticky? || next.InFanout?) && RaceMoves(env, t, next.race) {
      RaceMovesOn(env, began, t, clock, next.race);
    }
  }

  lemma {:induction false} ReachesOnSchedule(trip: Trip, steps: nat, a: Flight, hedgeMaxMs: nat, p: real, c: real)
    requires Healthy(trip, hedgeMaxMs, p, c) && Reaches(trip, steps, a)
    ensures OnSchedule(trip, a, hedgeMaxMs as real, p, c)
    decreases steps
  {
    hide Healthy, Moves, OnSchedule;
    if steps == 0 {
      DepartOnSchedule(trip, hedgeMaxMs as real, p, c);
    } else {
      var b :| Reaches(trip, steps - 1, b) && Moves(trip, b, a);
      ReachesOnSchedule(trip, steps - 1, b, hedgeMaxMs, p, c);
      MoveKeepsSchedule(trip, b, a, hedgeMaxMs, p, c);
    }
  }

  lemma DepartOnSchedule(trip: Trip, h: real, p: real, c: real)
    ensures OnSchedule(trip, DEPART, h, p, c)
  {
  }

  /** With a CDN that succeeds within c and free slots, a miss is served after at most two head starts, one probe
      budget and one pull, whatever the peers do, and is never still open after that. */
  lemma MissLatency(trip: Trip, steps: nat, a: Flight, hedgeMaxMs: nat, probeTimeout: real, c: real)
    requires Healthy(trip, hedgeMaxMs, probeTimeout, c) && Reaches(trip, steps, a)
    ensures var bound := 2.0 * hedgeMaxMs as real + probeTimeout + c;
            a.clock <= bound && (a.phase.Served? ==> a.phase.at <= bound)
  {
    ReachesOnSchedule(trip, steps, a, hedgeMaxMs, probeTimeout, c);
    hide Reaches, Underway, HealthyRace;
    if a.phase.InSticky? {
      RacePhase(trip.sticky.value, a.phase.began, a.phase.race, a.clock, AtStart, hedgeMaxMs, c);
    } else if a.phase.InFanout? {
      RacePhase(trip.found.value, a.phase.began, a.phase.race, a.clock, AtStart, hedgeMaxMs, c);
    }
  }

  /** The miss path never gets stuck: until it is served it can move. */
  lemma MissProgresses(trip: Trip, steps: nat, a: Flight, hedgeMaxMs: nat, probeTimeout: real, c: real)
    requires Healthy(trip, hedgeMaxMs, probeTimeout, c) && Reaches(trip, steps, a) && !a.phase.Served?
    ensures exists b :: Moves(trip, a, b)
  {
    ReachesOnSchedule(trip, steps, a, hedgeMaxMs, probeTimeout, c);
    match a.phase
    case AtStart =>
      assert Moves(trip, a, Flight(a.clock, if trip.sticky.Some? then InSticky(a.clock, BEGIN) else Probing(a.clock)));
    case InSticky(began, t) =>
      if t.returnedAt.None? {
        var u := RaceCanMove(trip.sticky.value, began, t, a.clock);
        assert Moves(trip, a, Flight(began + u.now, InSticky(began, u)));
      } else {
        assert Moves(trip, a, Flight(a.clock, if Gave(t) then Served(a.clock) else Probing(a.clock)));
      }
    case Probing(began) =>
      if a.clock < began + trip.probeFor {
        assert Moves(trip, a, Flight(began + trip.probeFor, a.phase));
      } else {
        assert Moves(trip, a, Flight(a.clock, if trip.found.Some? then InFanout(a.clock, BEGIN) else Pulling(a.clock)));
      }
    case InFanout(began, t) =>
      if t.returnedAt.None? {
        var u := RaceCanMove(trip.found.value, began, t, a.clock);
        assert Moves(trip, a, Flight(began + u.now, InFanout(began, u)));
      } else {
        assert Moves(trip, a, Flight(a.clock, if Gave(t) then Served(a.clock) else Pulling(a.clock)));
      }
    case Pulling(began) =>
      if a.clock < began + trip.plainFor {
        assert Moves(trip, a, Flight(began + trip.plainFor, a.phase));
      } else {
        assert Moves(trip, a, Flight(a.clock, Served(a.clock)));
      }
  }

  lemma RaceCanMove(env: Env, began: real, t: Timed, clock: real) returns (u: Timed)
    requires ValidEnv(env) && Underway(env, began, t, clock) && t.returnedAt.None?
    ensures RaceMoves(env, t, u)
  {
    var steps: nat :| Reached(env, steps, t);
    TimeProgresses(env, steps, t);
    if step :| Possible(env, t, step) {
      u := Act(env, t, step);
    } else {
      var later :| MayWait(env, t, later);
      u := t.(now := later);
      assert Waits(env, t, u);
    }
  }
}
