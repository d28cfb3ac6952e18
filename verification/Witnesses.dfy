/** Runs that exist: where the comments of shim-go/peer_hedge.go:50-51 and shim-go/peer_fetch.go:11-13 promise
    otherwise, and where the effective hit rate of shim-go/metrics.go:104-111 exceeds 1. */
module Witnesses {
  import opened Types
  import opened LruSpec
  import Ranges
  import R = Race
  import opened Node
  import NodeLedger
  import opened NodeProgress

  // ---- a race given up before the CDN was tried ----

  lemma ScheduleExtends(steps: seq<R.Step>, r: R.Race, step: R.Step)
    requires R.Schedule(steps, r) && R.Enabled(r, step)
    ensures R.Schedule(steps + [step], R.Apply(r, step))
  {
    var all := steps + [step];
    assert all[..|all| - 1] == steps && all[|all| - 1] == step;
  }

  /** The peer fails before the timer and the race is over, with no CDN attempt made. */
  lemma GivesUpWithoutCdn() returns (steps: seq<R.Step>, r: R.Race)
    ensures R.Schedule(steps, r) && r.main.Returned? && !r.main.ok && r.cdn.CdnIdle? && r.gets == 0
  {
    var failed := R.Apply(R.START, R.PeerDone(R.FAILURE));
    var sent := R.Apply(failed, R.PeerSend);
    ScheduleExtends([], R.START, R.PeerDone(R.FAILURE));
    ScheduleExtends([] + [R.PeerDone(R.FAILURE)], failed, R.PeerSend);
    ScheduleExtends([] + [R.PeerDone(R.FAILURE)] + [R.PeerSend], sent, R.TakePeer);
    steps := [] + [R.PeerDone(R.FAILURE)] + [R.PeerSend] + [R.TakePeer];
    r := R.Apply(sent, R.TakePeer);
  }

  // ---- building runs ----

  /** One peer, no limits. */
  const CFG := Config(None, 0, false, [0], 1, [])

  function Fresh(disk: map<Key, Body>, lru: seq<Entry<Key>>): Node {
    Node(disk, lru, Free, [], [], map[], [], 0, [], None, NO_COUNTS, NO_TALLY)
  }

  /** A client's request misses, leads a flight and finds a peer by probing. */
  lemma EntersRace(first: Node, past: seq<Step>, n: Node, key: Key) returns (steps: seq<Step>, m: Node)
    requires Run(CFG, first, past, n) && key !in n.sf && key.range != ""
    ensures Run(CFG, first, steps, m)
    ensures var f, r, q := |n.flights|, |n.reqs|, |n.races|;
            m == n.(reqs := n.reqs + [Request(ClientGet, key, Waiting(f))],
                    flights := n.flights + [Flight(key, r, InRace(q, false), [q], 1, 0, false)],
                    sf := n.sf[key := f], races := n.races + [RaceRec(f, 0, R.START)])
  {
    hide Run;
    var f, r := |n.flights|, |n.reqs|;
    RunExtends(CFG, first, past, n, Arrive(ClientGet, key));
    var a := Apply(CFG, n, Arrive(ClientGet, key));
    RunExtends(CFG, first, past + [Arrive(ClientGet, key)], a, ReadMiss(r));
    var b := Apply(CFG, a, ReadMiss(r));
    assert b == n.(reqs := n.reqs + [Request(ClientGet, key, Waiting(f))],
                   flights := n.flights + [Flight(key, r, Deciding, [], 0, 0, false)], sf := n.sf[key := f]);
    RunExtends(CFG, first, past + [Arrive(ClientGet, key)] + [ReadMiss(r)], b, Decide(f, false));
    var c := Apply(CFG, b, Decide(f, false));
    assert c.flights == n.flights + [Flight(key, r, Probing, [], 0, 0, false)];
    steps := past + [Arrive(ClientGet, key)] + [ReadMiss(r)] + [Decide(f, false)];
    RunExtends(CFG, first, steps, c, Probe(f, Some(0), false, 1));
    m := Apply(CFG, c, Probe(f, Some(0), false, 1));
    assert [] + [|n.races|] == [|n.races|];
    assert m.flights == n.flights + [Flight(key, r, InRace(|n.races|, false), [|n.races|], 1, 0, false)];
    steps := steps + [Probe(f, Some(0), false, 1)];
  }

  /** The peer answers before the timer, and the flight leaves its race. */
  lemma LeavesRace(first: Node, past: seq<Step>, n: Node, f: nat, reply: R.Answer) returns (steps: seq<Step>, m: Node)
    requires Run(CFG, first, past, n) && f < |n.flights| && n.flights[f].st.InRace?
    requires var q := n.flights[f].st.race; q < |n.races| && n.races[q] == RaceRec(f, 0, R.START)
    requires reply.bytes == 0 && (reply.ok || reply.body == [])
    requires reply.ok ==> Ranges.Accepts(n.flights[f].key.range, |reply.body|)
    ensures Run(CFG, first, steps, m)
    ensures var q := n.flights[f].st.race;
            var race := R.START.(main := R.Returned(reply.ok, R.SrcPeer, reply.body), peer := R.PeerSent(reply));
            var over := n.(races := n.races[q := RaceRec(f, 0, race)]);
            RaceOver(over, f) && m == LeaveRace(over, f)
  {
    hide Run, Ranges.Accepts, LeaveRace;
    var q := n.flights[f].st.race;
    var done, send, take := RaceStep(q, R.PeerDone(reply)), RaceStep(q, R.PeerSend), RaceStep(q, R.TakePeer);
    RunExtends(CFG, first, past, n, done);
    var a := Apply(CFG, n, done);
    RunExtends(CFG, first, past + [done], a, send);
    var b := Apply(CFG, a, send);
    RunExtends(CFG, first, past + [done] + [send], b, take);
    var c := Apply(CFG, b, take);
    steps := past + [done] + [send] + [take];
    assert c == n.(races := n.races[q := RaceRec(f, 0, R.START.(main := R.Returned(reply.ok, R.SrcPeer, reply.body),
                                                               peer := R.PeerSent(reply)))]);
    RunExtends(CFG, first, steps, c, RaceReturn(f));
    m := Apply(CFG, c, RaceReturn(f));
    steps := steps + [RaceReturn(f)];
  }

  // ---- a race that ran and did not serve ----

  /** A race runs and fails, and the flight is left to the plain CDN path. */
  lemma RaceRunsInVain() returns (first: Node, steps: seq<Step>, n: Node)
    ensures Run(CFG, first, steps, n)
    ensures |n.flights| == |n.races| == 1 && n.flights[0].st.PlainStart? && n.flights[0].races == [0]
    ensures n.races[0].flight == 0 && n.races[0].race.main.Returned? && !n.races[0].race.main.ok
  {
    first := Fresh(map[], []);
    assert Run(CFG, first, [], first);
    var m;
    steps, m := EntersRace(first, [], first, Key("xorb", "bytes=0-0"));
    steps, n := LeavesRace(first, steps, m, 0, R.FAILURE);
  }

  // ---- an effective hit rate above 1 ----

  const SEEN := Key("seen", "bytes=0-0")
  const ASKED := Key("asked", Ranges.PrintRange(0, 0))

  /** A hit on the one file on disk. */
  lemma ServesHit() returns (first: Node, steps: seq<Step>, n: Node)
    ensures Run(CFG, first, steps, n)
    ensures n == Fresh(map[SEEN := [0]], [Entry(SEEN, 1)]).(reqs := [Request(ClientGet, SEEN, Served([0], true))],
                  c := NO_COUNTS.(hits := 1, served := 1))
  {
    first := Fresh(map[SEEN := [0]], [Entry(SEEN, 1)]);
    assert Run(CFG, first, [], first);
    hide Run;
    RunExtends(CFG, first, [], first, Arrive(ClientGet, SEEN));
    var a := Apply(CFG, first, Arrive(ClientGet, SEEN));
    RunExtends(CFG, first, [] + [Arrive(ClientGet, SEEN)], a, ReadHit(0));
    var b := Apply(CFG, a, ReadHit(0));
    RunExtends(CFG, first, [] + [Arrive(ClientGet, SEEN)] + [ReadHit(0)], b, TouchHit(0));
    var c := Apply(CFG, b, TouchHit(0));
    OneEntryTouched();
    steps := [] + [Arrive(ClientGet, SEEN)] + [ReadHit(0)] + [TouchHit(0)];
    RunExtends(CFG, first, steps, c, ServeHit(0));
    n := Apply(CFG, c, ServeHit(0));
    steps := steps + [ServeHit(0)];
  }

  lemma OneEntryTouched()
    ensures Touch([Entry(SEEN, 1)], SEEN) == [Entry(SEEN, 1)]
  {
  }

  /** The body a peer delivered cannot be written: the request that led the flight fails, and nothing is booked. */
  lemma FailsToStore(first: Node, past: seq<Step>, n: Node, r: nat, f: nat) returns (steps: seq<Step>, m: Node)
    requires Run(CFG, first, past, n) && r < |n.reqs| && n.reqs[r].st == Waiting(f)
    requires f < |n.flights| && n.flights[f].st.Fetched? && n.flights[f].st.via.ViaPeer?
    ensures Run(CFG, first, steps, m)
    ensures m.reqs == n.reqs[r := n.reqs[r].(st := Failed(500))] && m.c == n.c
  {
    hide Run;
    RunExtends(CFG, first, past, n, Write(f, false));
    var failed := Apply(CFG, n, Write(f, false));
    RunExtends(CFG, first, past + [Write(f, false)], failed, Wake(r));
    m := Apply(CFG, failed, Wake(r));
    steps := past + [Write(f, false)] + [Wake(r)];
  }

  /** One hit, and one race the peer wins whose body cannot be written: both are counted as served without the CDN
      and only the hit as a request, so the rate is 2. */
  lemma HitRateCanExceedOne() returns (first: Node, steps: seq<Step>, n: Node)
    ensures Run(CFG, first, steps, n) && AtRest(n)
    ensures NodeLedger.EffectiveHitRate(n.c) == 2.0
  {
    hide Run, Ranges.PrintRange, Ranges.ParseRange, Apply;
    var hit, raced, left;
    first, steps, hit := ServesHit();
    OneByteIsAccepted();
    steps, raced := EntersRace(first, steps, hit, ASKED);
    steps, left := LeavesRace(first, steps, raced, 0, R.Answer(true, [0], 0));
    assert left.reqs == [hit.reqs[0], Request(ClientGet, ASKED, Waiting(0))];
    assert left.c.hits == 1 && left.c.misses == 0 && left.c.peerHits == 1;
    steps, n := FailsToStore(first, steps, left, 1, 0);
  }

  lemma OneByteIsAccepted()
    ensures ASKED != SEEN && ASKED.range != "" && Ranges.Accepts(ASKED.range, 1)
  {
    Ranges.RangeRoundTrip(0, 0);
    assert Ranges.PREFIX <= ASKED.range;
  }
}
