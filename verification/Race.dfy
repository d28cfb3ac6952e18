/** The hedged race of one flight (shim-go/peer_hedge.go:56-130, shim-go/xorb.go:69-88) as a step system:
    the caller's select loop, the peer goroutine, the CDN goroutine, the drain goroutine and the two
    one-place channels. Every order of the steps is a schedule. */
module Race {
  import opened Types

  datatype Source = SrcPeer | SrcCdn

  /** What a goroutine sends: raceResult. */
  datatype Answer = Answer(ok: bool, body: Body, bytes: nat)

  datatype Main =
    | HeadStart                                   // first select: peer or timer
    | Hedged                                      // second select: peer or CDN
    | AwaitCdn                                    // peer failed after the timer
    | AwaitPeer                                   // CDN failed first
    | Returned(ok: bool, src: Source, body: Body)

  datatype PeerRun =
    | PeerRunning
    | PeerReady(answer: Answer)
    | PeerSent(answer: Answer)

  datatype CdnRun =
    | CdnIdle                                     // the timer never fired
    | CdnStarting                                 // before tryAcquire
    | CdnHolding                                  // slot held, range being pulled
    | CdnRead(answer: Answer)                     // body read or failed, slot still held
    | CdnReady(answer: Answer)                    // slot released (or never taken)
    | CdnSent(answer: Answer)

  datatype Drain = NoDrain | Draining | Drained

  datatype Race = Race(main: Main, peer: PeerRun, peerCh: Option<Answer>, cdn: CdnRun, cdnCh: Option<Answer>,
                       drain: Drain, firstFailed: bool, gets: nat)

  const FAILURE := Answer(false, [], 0)

  const START := Race(HeadStart, PeerRunning, None, CdnIdle, None, NoDrain, false, 0)

  datatype Step =
    | PeerDone(reply: Answer)                     // peerGet returns
    | PeerSend
    | TimerFires
    | CdnGrant                                    // tryAcquire succeeds
    | CdnRefuse                                   // tryAcquire finds the pool full
    | CdnFetch(pull: Answer, issued: nat)         // fetchAuthorized and ReadAll return
    | CdnRelease
    | CdnSend
    | TakePeer
    | TakeCdn
    | DrainCdn

  predicate Enabled(r: Race, step: Step) {
    match step
    case PeerDone(reply) => r.peer.PeerRunning? && reply.bytes == 0 && (reply.ok || reply.body == [])
    case PeerSend => r.peer.PeerReady? && r.peerCh.None?
    case TimerFires => r.main.HeadStart?
    case CdnGrant => r.cdn.CdnStarting?
    case CdnRefuse => r.cdn.CdnStarting?
    case CdnFetch(pull, _) => r.cdn.CdnHolding? && (if pull.ok then pull.bytes == |pull.body| else pull.body == [])
    case CdnRelease => r.cdn.CdnRead?
    case CdnSend => r.cdn.CdnReady? && r.cdnCh.None?
    case TakePeer => r.peerCh.Some? && (r.main.HeadStart? || r.main.Hedged? || r.main.AwaitPeer?)
    case TakeCdn => r.cdnCh.Some? && (r.main.Hedged? || r.main.AwaitCdn?)
    case DrainCdn => r.drain.Draining? && r.cdnCh.Some?
  }

  function Apply(r: Race, step: Step): Race
    requires Enabled(r, step)
  {
    match step
    case PeerDone(reply) => r.(peer := PeerReady(reply))
    case PeerSend => r.(peer := PeerSent(r.peer.answer), peerCh := Some(r.peer.answer))
    case TimerFires => r.(main := Hedged, cdn := CdnStarting)
    case CdnGrant => r.(cdn := CdnHolding)
    case CdnRefuse => r.(cdn := CdnReady(FAILURE))
    case CdnFetch(pull, issued) => r.(cdn := CdnRead(pull), gets := r.gets + issued)
    case CdnRelease => r.(cdn := CdnReady(r.cdn.answer))
    case CdnSend => r.(cdn := CdnSent(r.cdn.answer), cdnCh := Some(r.cdn.answer))
    case TakePeer => TakenPeer(r.(peerCh := None), r.peerCh.value)
    case TakeCdn => TakenCdn(r.(cdnCh := None), r.cdnCh.value)
    case DrainCdn => r.(drain := Drained, cdnCh := None)
  }

  function TakenPeer(r: Race, a: Answer): Race {
    if !r.main.Hedged? then
      r.(main := Returned(a.ok, SrcPeer, a.body))
    else if a.ok then
      r.(main := Returned(true, SrcPeer, a.body), drain := Draining)
    else
      r.(main := AwaitCdn, firstFailed := true)
  }

  function TakenCdn(r: Race, a: Answer): Race {
    if !r.main.Hedged? then
      r.(main := Returned(a.ok, SrcCdn, a.body))
    else if a.ok then
      r.(main := Returned(true, SrcCdn, a.body))
    else
      r.(main := AwaitPeer, firstFailed := true)
  }

  // ---- the counters of the race ----

  /** peer_hedge_fired, peer_hedge_peer_won, peer_hedge_cdn_won, peer_bytes_wasted. */
  datatype HedgeCounters = HedgeCounters(fired: nat, peerWon: nat, cdnWon: nat, wasted: nat)

  /** How one step moves the counters. */
  function Book(h: HedgeCounters, r: Race, step: Step): HedgeCounters
    requires Enabled(r, step)
  {
    match step
    case TimerFires => h.(fired := h.fired + 1)
    case TakePeer => if r.main.Hedged? && r.peerCh.value.ok then h.(peerWon := h.peerWon + 1) else h
    case TakeCdn => if r.main.Hedged? && r.cdnCh.value.ok then h.(cdnWon := h.cdnWon + 1) else h
    case DrainCdn => if r.cdnCh.value.bytes > 0 then h.(wasted := h.wasted + r.cdnCh.value.bytes) else h
    case _ => h
  }

  // What a race has contributed so far, read off its state.
  function Fired(r: Race): int { if r.cdn.CdnIdle? then 0 else 1 }

  function PeerWon(r: Race): int { if r.drain.NoDrain? then 0 else 1 }

  function CdnWon(r: Race): int {
    if r.main.Returned? && r.main.src.SrcCdn? && !r.firstFailed then 1 else 0
  }

  function FirstFailed(r: Race): int { if r.firstFailed then 1 else 0 }

  function Wasted(r: Race): int { if r.drain.Drained? && r.cdn.CdnSent? then r.cdn.answer.bytes else 0 }

  function Holds(r: Race): int { if r.cdn.CdnHolding? || r.cdn.CdnRead? then 1 else 0 }

  /** Both goroutines that can outlive the race are finished, and so is the caller. */
  predicate Over(r: Race) {
    r.main.Returned? && r.peer.PeerSent? && (r.cdn.CdnIdle? || r.cdn.CdnSent?) && !r.drain.Draining?
  }

  // ---- what every schedule keeps ----

  predicate Inv(r: Race) {
    // A channel carries what its goroutine sent, and is empty until then.
    && (r.peerCh.Some? ==> r.peer.PeerSent? && r.peerCh.value == r.peer.answer)
    && (r.cdnCh.Some? ==> r.cdn.CdnSent? && r.cdnCh.value == r.cdn.answer)
    && (r.drain.Drained? ==> r.cdn.CdnSent? && r.cdnCh.None?)
    && match r.main {
         case HeadStart =>
           r.cdn.CdnIdle? && r.drain.NoDrain? && !r.firstFailed && (r.peer.PeerSent? ==> r.peerCh.Some?)
         case Hedged =>
           !r.cdn.CdnIdle? && r.drain.NoDrain? && !r.firstFailed
           && (r.peer.PeerSent? ==> r.peerCh.Some?) && (r.cdn.CdnSent? ==> r.cdnCh.Some?)
         case AwaitCdn =>
           !r.cdn.CdnIdle? && r.drain.NoDrain? && r.firstFailed && r.peer.PeerSent? && !r.peer.answer.ok
           && r.peerCh.None? && (r.cdn.CdnSent? ==> r.cdnCh.Some?)
         case AwaitPeer =>
           r.drain.NoDrain? && r.firstFailed && r.cdn.CdnSent? && !r.cdn.answer.ok
           && r.cdnCh.None? && (r.peer.PeerSent? ==> r.peerCh.Some?)
         case Returned(ok, src, body) =>
           Justified(r, ok, src, body)
           && (r.drain.NoDrain? <==> !(ok && src.SrcPeer? && !r.cdn.CdnIdle? && !r.firstFailed))
           && (r.drain.Draining? && r.cdn.CdnSent? ==> r.cdnCh.Some?)
       }
  }

  /** Why a race may return (ok, src, body). */
  predicate Justified(r: Race, ok: bool, src: Source, body: Body) {
    && (r.firstFailed ==> !r.cdn.CdnIdle?)
    && (src.SrcPeer? ==>
          r.peer.PeerSent? && r.peer.answer.ok == ok && r.peer.answer.body == body && r.peerCh.None?
          && (!ok ==> r.cdn.CdnIdle? || r.firstFailed)
          && (r.firstFailed ==> r.cdn.CdnSent? && !r.cdn.answer.ok))
    && (src.SrcCdn? ==>
          r.cdn.CdnSent? && r.cdn.answer.ok == ok && r.cdn.answer.body == body && r.cdnCh.None?
          && (!ok ==> r.firstFailed)
          && (r.firstFailed ==> r.peer.PeerSent? && !r.peer.answer.ok))
  }

  lemma StepKeepsInv(r: Race, step: Step)
    requires Inv(r) && Enabled(r, step)
    ensures Inv(Apply(r, step))
  {
  }

  /** A race, from its start, after the given steps. */
  ghost predicate Schedule(steps: seq<Step>, r: Race)
    decreases |steps|
  {
    if steps == [] then
      r == START
    else
      var last := steps[|steps| - 1];
      exists q :: Schedule(steps[..|steps| - 1], q) && Enabled(q, last) && r == Apply(q, last)
  }

  lemma {:induction false} ScheduleKeepsInv(steps: seq<Step>, r: Race)
    requires Schedule(steps, r)
    ensures Inv(r)
    decreases |steps|
  {
    if steps != [] {
      var last := steps[|steps| - 1];
      var q :| Schedule(steps[..|steps| - 1], q) && Enabled(q, last) && r == Apply(q, last);
      ScheduleKeepsInv(steps[..|steps| - 1], q);
      StepKeepsInv(q, last);
    }
  }

  /** A race gives up exactly when the peer failed before the timer, or both sides failed. */
  lemma OutcomeInEverySchedule(steps: seq<Step>, r: Race)
    requires Schedule(steps, r) && r.main.Returned?
    ensures !r.main.ok <==>
            r.peer.PeerSent? && !r.peer.answer.ok
            && (r.cdn.CdnIdle? || (r.cdn.CdnSent? && !r.cdn.answer.ok))
    ensures r.main.ok && r.main.src.SrcPeer? ==>
              r.peer.PeerSent? && r.peer.answer.ok && r.main.body == r.peer.answer.body
    ensures r.main.ok && r.main.src.SrcCdn? ==>
              r.cdn.CdnSent? && r.cdn.answer.ok && r.main.body == r.cdn.answer.body
  {
    ScheduleKeepsInv(steps, r);
  }

  /** Both channels have room whenever their goroutine is ready to send, a message once taken is never
      sent again, and a schedule that cannot be extended has finished every goroutine. */
  lemma NoSenderBlocks(steps: seq<Step>, r: Race)
    requires Schedule(steps, r)
    ensures r.peer.PeerReady? ==> Enabled(r, PeerSend)
    ensures r.cdn.CdnReady? ==> Enabled(r, CdnSend)
    ensures r.drain.Drained? ==> r.cdn.CdnSent?
    ensures Over(r) || CanMove(r)
  {
    ScheduleKeepsInv(steps, r);
    if !Over(r) {
      var step := NextStep(r, true);
    }
  }

  /** An unfinished race has a next step, whether or not the pool has a slot. */
  lemma NextStep(r: Race, slotFree: bool) returns (step: Step)
    requires Inv(r) && !Over(r)
    ensures Enabled(r, step)
    ensures step.PeerDone? ==> step.reply == FAILURE
    ensures step.CdnFetch? ==> step.pull == FAILURE && step.issued == 0
    ensures step.CdnGrant? ==> slotFree
    ensures step.CdnRefuse? ==> !slotFree
  {
    if r.peer.PeerRunning? {
      step := PeerDone(FAILURE);
    } else if r.peer.PeerReady? {
      step := PeerSend;
    } else if r.cdn.CdnStarting? {
      step := if slotFree then CdnGrant else CdnRefuse;
    } else if r.cdn.CdnHolding? {
      step := CdnFetch(FAILURE, 0);
    } else if r.cdn.CdnRead? {
      step := CdnRelease;
    } else if r.cdn.CdnReady? {
      step := CdnSend;
    } else if r.drain.Draining? {
      step := DrainCdn;
    } else if r.main.AwaitCdn? {
      step := TakeCdn;
    } else {
      step := TakePeer;
    }
  }

  ghost predicate CanMove(r: Race) {
    exists step :: Enabled(r, step)
  }

  /** One race: the timer's firing is accounted for by exactly one of a peer win, a CDN win or a failed
      first finisher, unless the race is still undecided; and each step books what it contributes. */
  lemma HedgeAccounts(r: Race)
    requires Inv(r)
    ensures Fired(r) == PeerWon(r) + CdnWon(r) + FirstFailed(r) + (if r.main.Hedged? then 1 else 0)
  {
  }

  lemma BookMatchesState(h: HedgeCounters, r: Race, step: Step)
    requires Inv(r) && Enabled(r, step)
    ensures var h', r' := Book(h, r, step), Apply(r, step);
            && h'.fired - h.fired == Fired(r') - Fired(r)
            && h'.peerWon - h.peerWon == PeerWon(r') - PeerWon(r)
            && h'.cdnWon - h.cdnWon == CdnWon(r') - CdnWon(r)
            && h'.wasted - h.wasted == Wasted(r') - Wasted(r)
  {
  }
}
