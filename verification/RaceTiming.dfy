/** The hedged race against a clock (shim-go/peer_hedge.go:56-130, shim-go/peer_fetch.go:14-49). Scheduling takes
    no time: a goroutine that can run, or a select that is ready, acts before the clock moves on; what happens
    at the same instant happens in any order. Times are in milliseconds since the race began. */
module RaceTiming {
  import opened Types
  import opened Race

  /** What one race meets. answersAt and pullFor are absent when that side never finishes. */
  datatype Env = Env(
    delay: real,                 // the hedge timer
    fetchTimeout: real,          // peerGet's own deadline; none when not positive
    answersAt: Option<real>,     // when the peer's answer would be in
    answer: Answer,              // what it is
    slot: bool,                  // a fetch slot is free when the timer fires
    pullFor: Option<real>,       // how long the CDN pull takes
    pull: Answer                 // what it returns
  )

  predicate ValidEnv(env: Env) {
    && 0.0 <= env.delay
    && (env.answersAt.Some? ==> 0.0 <= env.answersAt.value)
    && (env.pullFor.Some? ==> 0.0 <= env.pullFor.value)
    && env.answer.bytes == 0 && (env.answer.ok || env.answer.body == [])
    && (if env.pull.ok then env.pull.bytes == |env.pull.body| else env.pull.body == [])
  }

  /** The peer has not answered by the deadline of peerGet. */
  predicate TimesOut(env: Env) {
    0.0 < env.fetchTimeout && (env.answersAt.Some? ==> env.fetchTimeout < env.answersAt.value)
  }

  /** When peerGet returns, and what. */
  function PeerAt(env: Env): Option<real> { if TimesOut(env) then Some(env.fetchTimeout) else env.answersAt }

  function PeerReply(env: Env): Answer { if TimesOut(env) then FAILURE else env.answer }

  datatype Timed = Timed(race: Race, now: real, returnedAt: Option<real>)

  const BEGIN := Timed(START, 0.0, None)

  /** The instant the CDN pull is over, if the hedge is fired. */
  function PullDone(env: Env): Option<real> {
    if !env.slot then Some(env.delay)
    else if env.pullFor.Some? then Some(env.delay + env.pullFor.value)
    else None
  }

  predicate Due(at: Option<real>, now: real) { at.Some? && at.value <= now }

  /** A step of the race is possible at this instant, and is the one this environment dictates. */
  predicate Possible(env: Env, t: Timed, step: Step) {
    && Enabled(t.race, step)
    && match step {
         case PeerDone(reply) => Due(PeerAt(env), t.now) && reply == PeerReply(env)
         case TimerFires => env.delay <= t.now
         case CdnGrant => env.slot
         case CdnRefuse => !env.slot
         case CdnFetch(pull, _) => Due(PullDone(env), t.now) && pull == env.pull
         case _ => true
       }
  }

  function Act(env: Env, t: Timed, step: Step): Timed
    requires Possible(env, t, step)
  {
    var race := Apply(t.race, step);
    Timed(race, t.now, if race.main.Returned? && t.returnedAt.None? then Some(t.now) else t.returnedAt)
  }

  /** Nothing is left to do at this instant. */
  predicate Settled(env: Env, t: Timed) {
    && !t.race.peer.PeerReady? && !t.race.cdn.CdnStarting? && !t.race.cdn.CdnRead? && !t.race.cdn.CdnReady?
    && !Enabled(t.race, TakePeer) && !Enabled(t.race, TakeCdn)
  }

  /** The clock may advance to `later` without passing an event. */
  predicate MayWait(env: Env, t: Timed, later: real) {
    && t.now < later && Settled(env, t)
    && (t.race.peer.PeerRunning? && PeerAt(env).Some? ==> later <= PeerAt(env).value)
    && (t.race.main.HeadStart? ==> later <= env.delay)
    && (t.race.cdn.CdnHolding? && PullDone(env).Some? ==> later <= PullDone(env).value)
  }

  ghost predicate Acts(env: Env, t: Timed, u: Timed) {
    exists step :: Possible(env, t, step) && u == Act(env, t, step)
  }

  predicate Waits(env: Env, t: Timed, u: Timed) {
    MayWait(env, t, u.now) && u == t.(now := u.now)
  }

  /** t is reached in this environment by the given number of steps and waits. */
  ghost predicate Reached(env: Env, steps: nat, t: Timed)
    decreases steps
  {
    if steps == 0 then t == BEGIN
    else exists u :: Reached(env, steps - 1, u) && (Acts(env, u, t) || Waits(env, u, t))
  }

  // ---- what every timed schedule keeps ----

  /** The peer goroutine acts at peerAt exactly; its answer is taken at once unless the caller awaits the CDN. */
  predicate PeerOnTime(env: Env, t: Timed) {
    && (t.race.peer.PeerRunning? && PeerAt(env).Some? && t.returnedAt.None? ==> t.now <= PeerAt(env).value)
    && (!t.race.peer.PeerRunning? ==> Due(PeerAt(env), t.now) && t.race.peer.answer == PeerReply(env))
    && ((t.race.peer.PeerReady? || t.race.peerCh.Some?) && t.returnedAt.None? ==> PeerAt(env) == Some(t.now))
  }

  predicate CdnOnTime(env: Env, t: Timed) {
    && (t.race.main.HeadStart? ==> t.now <= env.delay)
    && (!t.race.cdn.CdnIdle? ==> env.delay <= t.now)
    && (t.race.cdn.CdnStarting? && t.returnedAt.None? ==> t.now == env.delay)
    && (t.race.cdn.CdnHolding? ==> env.slot)
    && (t.race.cdn.CdnHolding? && PullDone(env).Some? && t.returnedAt.None? ==> t.now <= PullDone(env).value)
    && (t.race.cdn.CdnRead? || t.race.cdn.CdnReady? || t.race.cdn.CdnSent? ==>
          Due(PullDone(env), t.now) && t.race.cdn.answer == (if env.slot then env.pull else FAILURE))
    && ((t.race.cdn.CdnRead? || t.race.cdn.CdnReady? || t.race.cdnCh.Some?) && t.returnedAt.None? ==>
          PullDone(env) == Some(t.now))
  }

  /** A return is caused by what arrived at that very instant, and by nothing that had arrived before. */
  predicate ReturnOnTime(env: Env, t: Timed) {
    && (t.returnedAt.Some? <==> t.race.main.Returned?)
    && (t.returnedAt.Some? ==>
          var at, out := t.returnedAt.value, t.race.main;
          && 0.0 <= at <= t.now
          && (out.src.SrcPeer? ==>
                PeerAt(env) == Some(at) && out.ok == PeerReply(env).ok
                && (!t.race.firstFailed && !t.race.cdn.CdnIdle? && PullDone(env).Some? ==> at <= PullDone(env).value)
                && (t.race.cdn.CdnIdle? ==> at <= env.delay)
                && (t.race.firstFailed ==> Due(PullDone(env), at) && !(env.slot && env.pull.ok)))
          && (out.src.SrcCdn? ==>
                PullDone(env) == Some(at) && out.ok == (env.slot && env.pull.ok)
                && (!t.race.firstFailed && PeerAt(env).Some? ==> at <= PeerAt(env).value)
                && (t.race.firstFailed ==>
                      Due(PeerAt(env), at) && env.delay <= PeerAt(env).value && !PeerReply(env).ok)))
  }

  predicate FirstFailure(env: Env, t: Timed) {
    && (t.race.main.AwaitCdn? ==> Due(PeerAt(env), t.now) && env.delay <= PeerAt(env).value && !PeerReply(env).ok)
    && (t.race.main.AwaitPeer? ==> Due(PullDone(env), t.now) && !(env.slot && env.pull.ok))
  }

  predicate OnTime(env: Env, t: Timed) {
    Inv(t.race) && 0.0 <= t.now && PeerOnTime(env, t) && CdnOnTime(env, t)
    && ReturnOnTime(env, t) && FirstFailure(env, t)
  }

  lemma ActOnTime(env: Env, t: Timed, step: Step)
    requires ValidEnv(env) && OnTime(env, t) && Possible(env, t, step)
    ensures PeerOnTime(env, Act(env, t, step)) && CdnOnTime(env, Act(env, t, step))
  {
    hide ReturnOnTime, FirstFailure, Justified, PeerAt, PeerReply;
  }

  lemma ActReturns(env: Env, t: Timed, step: Step)
    requires ValidEnv(env) && OnTime(env, t) && Possible(env, t, step)
    ensures ReturnOnTime(env, Act(env, t, step)) && FirstFailure(env, Act(env, t, step))
  {
    hide PeerAt, PeerReply;
  }

  lemma ActKeeps(env: Env, t: Timed, step: Step)
    requires ValidEnv(env) && OnTime(env, t) && Possible(env, t, step)
    ensures OnTime(env, Act(env, t, step))
  {
    hide Inv, PeerOnTime, CdnOnTime, ReturnOnTime, FirstFailure, ValidEnv;
    StepKeepsInv(t.race, step);
    ActOnTime(env, t, step);
    ActReturns(env, t, step);
  }

  lemma WaitKeeps(env: Env, t: Timed, later: real)
    requires ValidEnv(env) && OnTime(env, t) && MayWait(env, t, later)
    ensures OnTime(env, t.(now := later))
  {
  }

  lemma {:induction false} ReachedOnTime(env: Env, steps: nat, t: Timed)
    requires ValidEnv(env) && Reached(env, steps, t)
    ensures OnTime(env, t)
    decreases steps
  {
    if steps > 0 {
      var u :| Reached(env, steps - 1, u) && (Acts(env, u, t) || Waits(env, u, t));
      ReachedOnTime(env, steps - 1, u);
      if Acts(env, u, t) {
        var step :| Possible(env, u, step) && t == Act(env, u, step);
        ActKeeps(env, u, step);
      } else {
        WaitKeeps(env, u, t.now);
      }
    }
  }

  // ---- latency ----

  function Min(x: real, y: real): real { if x <= y then x else y }

  /** Both sides would succeed and the hedge gets a slot: the race returns a body at exactly min(P, d + C), in
      every schedule, and is never still open after that. */
  lemma RaceLatency(env: Env, steps: nat, t: Timed)
    requires ValidEnv(env) && Reached(env, steps, t)
    requires PeerAt(env).Some? && PeerReply(env).ok && env.slot && env.pullFor.Some? && env.pull.ok
    ensures var bound := Min(PeerAt(env).value, env.delay + env.pullFor.value);
            if t.race.main.Returned? then t.race.main.ok && t.returnedAt == Some(bound) else t.now <= bound
  {
    ReachedOnTime(env, steps, t);
  }

  /** The CDN would succeed and the hedge gets a slot, whatever the peer does: the race is over by d + C, and it
      gives up only if the peer failed no later than the timer. */
  lemma HedgeGuarantee(env: Env, steps: nat, t: Timed)
    requires ValidEnv(env) && Reached(env, steps, t)
    requires env.slot && env.pullFor.Some? && env.pull.ok
    ensures t.race.main.Returned? <==> t.returnedAt.Some?
    ensures if t.returnedAt.Some? then t.returnedAt.value <= env.delay + env.pullFor.value
            else t.now <= env.delay + env.pullFor.value
    ensures t.race.main.Returned? && !t.race.main.ok ==>
              PeerAt(env).Some? && t.returnedAt == PeerAt(env) && PeerAt(env).value <= env.delay && !PeerReply(env).ok
  {
    ReachedOnTime(env, steps, t);
  }

  /** No slot for the hedge: the race ends exactly when peerGet does, so by fetchTimeout when that is set, and it gives
      up if the peer has not answered by then. */
  lemma NoSlotEndsWithPeer(env: Env, steps: nat, t: Timed)
    requires ValidEnv(env) && Reached(env, steps, t) && !env.slot
    ensures t.race.main.Returned? ==> t.returnedAt == PeerAt(env) && t.race.main.ok == PeerReply(env).ok
    ensures !t.race.main.Returned? && PeerAt(env).Some? ==> t.now <= PeerAt(env).value
    ensures 0.0 < env.fetchTimeout ==>
              if t.race.main.Returned? then t.returnedAt.value <= env.fetchTimeout else t.now <= env.fetchTimeout
    ensures t.race.main.Returned? && t.race.main.ok ==>
              env.answer.ok && t.returnedAt == env.answersAt
              && (0.0 < env.fetchTimeout ==> env.answersAt.value <= env.fetchTimeout)
  {
    ReachedOnTime(env, steps, t);
  }

  /** The clock never gets stuck: an open race can act or wait. */
  lemma TimeProgresses(env: Env, steps: nat, t: Timed)
    requires ValidEnv(env) && Reached(env, steps, t) && t.returnedAt.None?
    ensures (exists step :: Possible(env, t, step)) || (exists later :: MayWait(env, t, later))
  {
    ReachedOnTime(env, steps, t);
    var r := t.race;
    if !Settled(env, t) {
      var step := if r.peer.PeerReady? then PeerSend
                  else if r.cdn.CdnStarting? then (if env.slot then CdnGrant else CdnRefuse)
                  else if r.cdn.CdnRead? then CdnRelease
                  else if r.cdn.CdnReady? then CdnSend
                  else if Enabled(r, TakePeer) then TakePeer
                  else TakeCdn;
      assert Possible(env, t, step);
    } else if r.peer.PeerRunning? && Due(PeerAt(env), t.now) {
      assert Possible(env, t, PeerDone(PeerReply(env)));
    } else if r.main.HeadStart? && env.delay <= t.now {
      assert Possible(env, t, TimerFires);
    } else if r.cdn.CdnHolding? && Due(PullDone(env), t.now) {
      assert Possible(env, t, CdnFetch(env.pull, 0));
    } else {
      var later := t.now + 1.0;
      if r.peer.PeerRunning? && PeerAt(env).Some? {
        later := Min(later, PeerAt(env).value);
      }
      if r.main.HeadStart? {
        later := Min(later, env.delay);
      }
      if r.cdn.CdnHolding? && PullDone(env).Some? {
        later := Min(later, PullDone(env).value);
      }
      assert MayWait(env, t, later);
    }
  }
}
