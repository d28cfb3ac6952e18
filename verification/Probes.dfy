/** The fan-out probe (shim-go/peer_fetch.go:77-125) as a step system: the caller's select, one goroutine per peer
    with its HEAD, the buffered channel they report to and the goroutine that closes it. Peers are named by their
    place in the list. */
module Probes {
  import opened Types
  import opened Seqs
  import N = Node

  datatype Prober =
    | Spawned
    | Asking                        // HEAD sent
    | Answered(has: bool)           // headProbe has returned
    | Done(has: bool)               // reported, or had nothing to report

  datatype Caller =
    | Selecting
    | Returned(found: Option<nat>, timedOut: bool)

  /** asked lists the peers a HEAD was sent to. */
  datatype Probe = Probe(probers: seq<Prober>, channel: seq<nat>, closed: bool, expired: bool, caller: Caller,
                         asked: seq<nat>)

  function Start(peers: nat): Probe {
    Probe(seq(peers, _ => Spawned), [], false, false, Selecting, [])
  }

  datatype Step =
    | Ask(i: nat)
    | Skip(i: nat)                  // no request could be made, or the context was over before it
    | Reply(i: nat, has: bool)
    | Report(i: nat)
    | Close
    | Expire                        // the probe timeout, or the end of the flight's own context
    | Receive
    | ReceiveClosed
    | TimeOut

  predicate AllDone(probers: seq<Prober>) {
    forall i :: 0 <= i < |probers| ==> probers[i].Done?
  }

  /** A request under an expired context is never sent. */
  predicate Enabled(p: Probe, step: Step) {
    match step
    case Ask(i) => i < |p.probers| && p.probers[i].Spawned? && !p.expired
    case Skip(i) => i < |p.probers| && p.probers[i].Spawned?
    case Reply(i, _) => i < |p.probers| && p.probers[i].Asking?
    case Report(i) => i < |p.probers| && p.probers[i].Answered?
    case Close => !p.closed && AllDone(p.probers)
    case Expire => !p.expired
    case Receive => p.caller.Selecting? && p.channel != []
    case ReceiveClosed => p.caller.Selecting? && p.channel == [] && p.closed
    case TimeOut => p.caller.Selecting? && p.expired
  }

  /** A full channel drops the report; a return cancels the context. */
  function Apply(p: Probe, step: Step): Probe
    requires Enabled(p, step)
  {
    match step
    case Ask(i) => p.(probers := p.probers[i := Asking], asked := p.asked + [i])
    case Skip(i) => p.(probers := p.probers[i := Answered(false)])
    case Reply(i, has) => p.(probers := p.probers[i := Answered(has)])
    case Report(i) =>
      var has := p.probers[i].has;
      p.(probers := p.probers[i := Done(has)],
         channel := if has && |p.channel| < |p.probers| then p.channel + [i] else p.channel)
    case Close => p.(closed := true)
    case Expire => p.(expired := true)
    case Receive => p.(caller := Returned(Some(p.channel[0]), false), channel := p.channel[1..], expired := true)
    case ReceiveClosed => p.(caller := Returned(None, false), expired := true)
    case TimeOut => p.(caller := Returned(None, true), expired := true)
  }

  ghost predicate Schedule(peers: nat, steps: seq<Step>, p: Probe)
    decreases |steps|
  {
    if steps == [] then
      p == Start(peers)
    else
      var last := steps[|steps| - 1];
      exists q :: Schedule(peers, steps[..|steps| - 1], q) && Enabled(q, last) && p == Apply(q, last)
  }

  // ---- what every schedule keeps ----

  /** Distinct peers of the list. */
  ghost predicate Peers(s: seq<nat>, peers: nat) {
    NoRepeats(s) && forall x :: x in s ==> x < peers
  }

  ghost predicate AskedInv(p: Probe) {
    Peers(p.asked, |p.probers|) && forall i :: i in p.asked ==> !p.probers[i].Spawned?
  }

  /** The channel holds peers that have the range; while the caller selects it holds all that have reported. */
  ghost predicate ChannelInv(p: Probe) {
    && Peers(p.channel, |p.probers|)
    && (forall i :: i in p.channel ==> p.probers[i] == Done(true))
    && (p.caller.Selecting? ==> forall i :: 0 <= i < |p.probers| && p.probers[i] == Done(true) ==> i in p.channel)
  }

  predicate CallerInv(p: Probe) {
    && (p.closed ==> AllDone(p.probers))
    && match p.caller {
         case Selecting => true
         case Returned(None, timedOut) =>
           p.expired && (!timedOut ==> forall i :: 0 <= i < |p.probers| ==> p.probers[i] == Done(false))
         case Returned(Some(i), timedOut) =>
           p.expired && !timedOut && i < |p.probers| && p.probers[i] == Done(true)
       }
  }

  ghost predicate Inv(p: Probe) {
    AskedInv(p) && ChannelInv(p) && CallerInv(p)
  }

  /** Distinct numbers below a bound are no more than the bound. */
  lemma {:induction false} Pigeonhole(s: seq<nat>, bound: nat)
    requires Peers(s, bound)
    ensures |s| <= bound
  {
    assert s != [] ==> s[0] in s;
    if bound > 0 {
      if k :| 0 <= k < |s| && s[k] == bound - 1 {
        var rest := s[..k] + s[k + 1..];
        forall j | 0 <= j < |rest| ensures rest[j] < bound - 1 {
          var at := if j < k then j else j + 1;
          assert rest[j] == s[at] && s[at] in s && at != k;
        }
        Pigeonhole(rest, bound - 1);
      } else {
        Pigeonhole(s, bound - 1);
      }
    }
  }

  /** A prober that has not reported finds room in the channel. */
  lemma RoomToReport(p: Probe, i: nat)
    requires ChannelInv(p) && i < |p.probers| && !p.probers[i].Done?
    ensures |p.channel| < |p.probers|
  {
    Pigeonhole(p.channel + [i], |p.probers|);
  }

  lemma StepKeepsAsked(p: Probe, step: Step)
    requires Inv(p) && Enabled(p, step)
    ensures AskedInv(Apply(p, step))
  {
  }

  lemma StepKeepsChannel(p: Probe, step: Step)
    requires Inv(p) && Enabled(p, step)
    ensures ChannelInv(Apply(p, step))
  {
    var q := Apply(p, step);
    if step.Report? {
      RoomToReport(p, step.i);
    } else if step.Receive? {
      assert forall x :: x in q.channel ==> x in p.channel;
    }
  }

  lemma StepKeepsCaller(p: Probe, step: Step)
    requires Inv(p) && Enabled(p, step)
    ensures CallerInv(Apply(p, step))
  {
    if step.Receive? {
      assert p.channel[0] in p.channel;
    } else if step.ReceiveClosed? {
      forall i | 0 <= i < |p.probers| ensures p.probers[i] == Done(false) {
        assert i !in p.channel;
      }
    }
  }

  lemma StepKeepsInv(p: Probe, step: Step)
    requires Inv(p) && Enabled(p, step)
    ensures Inv(Apply(p, step)) && |Apply(p, step).probers| == |p.probers|
  {
    StepKeepsAsked(p, step);
    StepKeepsChannel(p, step);
    StepKeepsCaller(p, step);
  }

  lemma {:induction false} ScheduleKeepsInv(peers: nat, steps: seq<Step>, p: Probe)
    requires Schedule(peers, steps, p)
    ensures Inv(p) && |p.probers| == peers
    decreases |steps|
  {
    if steps != [] {
      var last := steps[|steps| - 1];
      var q :| Schedule(peers, steps[..|steps| - 1], q) && Enabled(q, last) && p == Apply(q, last);
      ScheduleKeepsInv(peers, steps[..|steps| - 1], q);
      StepKeepsInv(q, last);
    }
  }

  // ---- what a probe promises ----

  /** In every schedule a peer named by the probe said it has the range, and a probe that ends in time names none
      exactly when every peer was heard out and none has it. */
  lemma OutcomeInEverySchedule(peers: nat, steps: seq<Step>, p: Probe)
    requires Schedule(peers, steps, p) && p.caller.Returned?
    ensures p.caller.found.Some? ==>
              p.caller.found.value < peers == |p.probers| && p.probers[p.caller.found.value] == Done(true)
              && !p.caller.timedOut
    ensures !p.caller.timedOut ==>
              (p.caller.found.None? <==> forall i :: 0 <= i < |p.probers| ==> p.probers[i] == Done(false))
  {
    ScheduleKeepsInv(peers, steps, p);
  }

  /** No peer is asked twice, a report always finds room and never meets a closed channel, and nothing is asked once
      the caller has returned. */
  lemma NoReportIsLost(peers: nat, steps: seq<Step>, p: Probe, i: nat)
    requires Schedule(peers, steps, p)
    ensures NoRepeats(p.asked) && |p.asked| <= peers
    ensures i < peers == |p.probers| && p.probers[i].Answered? ==> |p.channel| < peers && !p.closed
    ensures p.caller.Returned? ==> !Enabled(p, Ask(i))
  {
    ScheduleKeepsInv(peers, steps, p);
    Pigeonhole(p.asked, peers);
    if i < peers && p.probers[i].Answered? {
      RoomToReport(p, i);
    }
  }

  // ---- every probe ends ----

  function Rank(prober: Prober): nat {
    match prober
    case Spawned => 3
    case Asking => 2
    case Answered(_) => 1
    case Done(_) => 0
  }

  function Ranks(probers: seq<Prober>): nat {
    if probers == [] then 0 else Rank(probers[0]) + Ranks(probers[1..])
  }

  /** An upper bound of the steps left. */
  function Left(p: Probe): nat {
    Ranks(p.probers) + (if p.closed then 0 else 1) + (if p.expired then 0 else 1)
    + (if p.caller.Selecting? then 1 else 0)
  }

  lemma {:induction false} RanksUpdate(probers: seq<Prober>, i: nat, to: Prober)
    requires i < |probers|
    ensures Ranks(probers[i := to]) == Ranks(probers) - Rank(probers[i]) + Rank(to)
  {
    if i == 0 {
      assert probers[0 := to][1..] == probers[1..];
    } else {
      assert probers[i := to][1..] == probers[1..][i - 1 := to];
      RanksUpdate(probers[1..], i - 1, to);
    }
  }

  lemma {:induction false} RanksAtStart(peers: nat)
    ensures Ranks(Start(peers).probers) == 3 * peers
  {
    if peers > 0 {
      assert Start(peers).probers[1..] == Start(peers - 1).probers;
      RanksAtStart(peers - 1);
    }
  }

  lemma StepUses(p: Probe, step: Step)
    requires Enabled(p, step)
    ensures Left(Apply(p, step)) < Left(p)
  {
    match step
    case Ask(i) => RanksUpdate(p.probers, i, Asking);
    case Skip(i) => RanksUpdate(p.probers, i, Answered(false));
    case Reply(i, has) => RanksUpdate(p.probers, i, Answered(has));
    case Report(i) => RanksUpdate(p.probers, i, Done(p.probers[i].has));
    case _ =>
  }

  lemma {:induction false} LeftInSchedule(peers: nat, steps: seq<Step>, p: Probe)
    requires Schedule(peers, steps, p)
    ensures |steps| + Left(p) <= 3 * peers + 3
    decreases |steps|
  {
    if steps == [] {
      RanksAtStart(peers);
    } else {
      var last := steps[|steps| - 1];
      var q :| Schedule(peers, steps[..|steps| - 1], q) && Enabled(q, last) && p == Apply(q, last);
      LeftInSchedule(peers, steps[..|steps| - 1], q);
      StepUses(q, last);
    }
  }

  /** The caller has returned, every goroutine is done and the channel is closed. */
  predicate Over(p: Probe) {
    p.caller.Returned? && AllDone(p.probers) && p.closed
  }

  ghost predicate CanMove(p: Probe) {
    exists step :: Enabled(p, step)
  }

  /** A probe has at most 3 * peers + 3 steps, in any order, and none is left only when the caller has returned and
      no goroutine is left behind. */
  lemma EveryProbeEnds(peers: nat, steps: seq<Step>, p: Probe)
    requires Schedule(peers, steps, p)
    ensures |steps| <= 3 * peers + 3
    ensures Over(p) || CanMove(p)
  {
    LeftInSchedule(peers, steps, p);
    if i :| 0 <= i < |p.probers| && !p.probers[i].Done? {
      var step :=
        match p.probers[i] {
          case Spawned => Skip(i)
          case Asking => Reply(i, false)
          case Answered(_) => Report(i)
          case Done(_) => Close
        };
      assert Enabled(p, step);
    } else if !p.closed {
      assert Enabled(p, Close);
    } else if p.caller.Selecting? {
      assert Enabled(p, if p.channel == [] then ReceiveClosed else Receive);
    }
  }

  // ---- the node's step ----

  /** A finished probe of a node's peers is a step of the node: the peer found is one of its own, and the HEADs
      sent are within the step's bound. */
  lemma ProbeIsStep(cfg: N.Config, n: N.Node, f: nat, steps: seq<Step>, p: Probe)
    requires f < |n.flights| && n.flights[f].st.Probing?
    requires Schedule(|cfg.peers|, steps, p) && p.caller.Returned?
    ensures p.caller.found.Some? ==> p.caller.found.value < |cfg.peers|
    ensures var found := if p.caller.found.Some? then Some(cfg.peers[p.caller.found.value]) else None;
            N.Enabled(cfg, n, N.Probe(f, found, p.caller.timedOut, |p.asked|))
  {
    ScheduleKeepsInv(|cfg.peers|, steps, p);
    Pigeonhole(p.asked, |cfg.peers|);
  }
}
