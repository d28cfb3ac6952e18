/** One cache node (shim-go/xorb.go:106-205, shim-go/peer_fetch.go:14-109, shim-go/server.go:90-123) as a step
    system. Requests, flights and races are append-only logs whose entries advance through their states; a
    step label carries every choice the code leaves to the clock, the network, the scheduler or the disk. */
module Node {
  import opened Types
  import opened Seqs
  import opened LruSpec
  import R = Race
  import Ranges

  type PeerId = nat

  datatype Config = Config(
    cap: Option<nat>,               // MAX_INFLIGHT_FETCHES; None is unlimited
    max: int,                       // byte budget; <= 0 disables it
    floor: bool,                    // a disk-free watermark is configured
    peers: seq<PeerId>,
    candidates: nat,                // SIGNED_CANDIDATES_PER_XORB
    orphans: seq<Entry<Key>>        // files of earlier runs that boot failed to list
  )

  predicate ValidConfig(cfg: Config) {
    cfg.cap.Some? ==> 0 < cfg.cap.value
  }

  // ---- requests ----

  datatype Kind = ClientGet | PeerGet | Head

  datatype ReqState =
    | Arrived
    | HitRead(body: Body)           // file opened and statted
    | HitTouched(body: Body)
    | HeadFound
    | Waiting(flight: nat)          // inside singleflight.Do
    | Served(body: Body, hit: bool) // 206
    | HeadOk                        // 200
    | NotFound                      // 404
    | Failed(code: nat)

  datatype Request = Request(kind: Kind, key: Key, st: ReqState)

  predicate Unfinished(st: ReqState) {
    st.Arrived? || st.HitRead? || st.HitTouched? || st.HeadFound? || st.Waiting?
  }

  // ---- flights: one execution of the singleflight function ----

  datatype Via = ViaPeer | ViaHedge | ViaPlain

  datatype Result = Ok(body: Body) | Err(code: nat)

  datatype FlightState =
    | Deciding
    | InRace(race: nat, sticky: bool)
    | Probing
    | PlainStart                          // about to acquire a slot
    | Queued                              // blocked in acquire
    | Holding                             // slot held, fetching
    | Fetched(body: Body, via: Via)       // about to write the file
    | Written(body: Body, via: Via)       // file in place, not yet recorded
    | Recording(body: Body, via: Via)     // inside lru.Record
    | Recorded(body: Body, via: Via)
    | Releasing(result: Result)           // deferred release pending
    | Finished(result: Result)

  /** paid: the request that led the flight has been answered. */
  datatype Flight = Flight(key: Key, leader: nat, st: FlightState, races: seq<nat>, heads: nat, gets: nat, paid: bool)

  datatype RaceRec = RaceRec(flight: nat, target: PeerId, race: R.Race)

  /** lru.mu: free, or held by the Record of a flight, which may have popped an entry whose file is
      not yet removed. */
  datatype Lock = Free | Busy(flight: nat, popped: Option<Entry<Key>>)

  datatype Counters = Counters(
    hits: nat, misses: nat, served: nat, wan: nat, peerHits: nat, peerMisses: nat, peerBytes: nat,
    probeTimeouts: nat, hedgeCdnBytes: nat, hedge: R.HedgeCounters)

  /** What the code does not count but the ledger needs. */
  datatype Tally = Tally(leadServed: nat, failedBytes: nat, failedWrites: nat, hedgeFlights: nat, plainFlights: nat)

  datatype Node = Node(
    disk: map<Key, Body>, lru: seq<Entry<Key>>, lock: Lock,
    reqs: seq<Request>, flights: seq<Flight>, sf: map<Key, nat>, races: seq<RaceRec>,
    used: nat, queue: seq<nat>, sticky: Option<PeerId>, c: Counters, t: Tally)

  /** Every request has been answered (so every flight is over). */
  ghost predicate AtRest(n: Node) {
    forall r :: 0 <= r < |n.reqs| ==> !Unfinished(n.reqs[r].st)
  }

  // ---- boot ----

  const NO_HEDGES := R.HedgeCounters(0, 0, 0, 0)
  const NO_COUNTS := Counters(0, 0, 0, 0, 0, 0, 0, 0, 0, NO_HEDGES)
  const NO_TALLY := Tally(0, 0, 0, 0, 0)

  ghost predicate Init(cfg: Config, n: Node) {
    && ValidConfig(cfg)
    && Distinct(n.lru)
    && (0 < cfg.max ==> Total(n.lru) <= cfg.max)
    && (forall k :: k in n.disk ==> Entry(k, |n.disk[k]|) in n.lru || Entry(k, |n.disk[k]|) in cfg.orphans)
    && n == Node(n.disk, n.lru, Free, [], [], map[], [], 0, [], None, NO_COUNTS, NO_TALLY)
  }

  // ---- steps ----

  datatype Step =
    | Arrive(kind: Kind, key: Key)
    | ReadHit(r: nat)
    | ReadMiss(r: nat)
    | TouchHit(r: nat)
    | ServeHit(r: nat)
    | Decide(f: nat, live: bool)
    | RaceStep(q: nat, rs: R.Step)
    | RaceReturn(f: nat)
    | Probe(f: nat, found: Option<PeerId>, timedOut: bool, issued: nat)
    | Acquire(f: nat)
    | Cancel(f: nat)
    | Fetch(f: nat, got: Result, issued: nat)
    | Write(f: nat, ok: bool)
    | RecordStart(f: nat)
    | EvictPop(low: bool)
    | EvictDel
    | EvictEnd(low: bool)
    | Settle(f: nat)
    | Release(f: nat)
    | Wake(r: nat)

  predicate Over(cfg: Config, lru: seq<Entry<Key>>, low: bool) {
    (0 < cfg.max && Total(lru) > cfg.max) || (cfg.floor && low)
  }

  predicate SlotFree(cfg: Config, n: Node) {
    cfg.cap.Some? ==> n.used < cfg.cap.value
  }

  predicate RaceEnabled(cfg: Config, n: Node, q: nat, rs: R.Step)
    requires q < |n.races|
  {
    R.Enabled(n.races[q].race, rs)
    && match rs {
         case PeerDone(reply) =>
           n.races[q].flight < |n.flights|
           && (reply.ok ==> Ranges.Accepts(n.flights[n.races[q].flight].key.range, |reply.body|))
         case CdnGrant => SlotFree(cfg, n)
         case CdnRefuse => !SlotFree(cfg, n)
         case CdnFetch(_, issued) => issued <= cfg.candidates
         case CdnRelease => cfg.cap.Some? ==> 0 < n.used
         case _ => true
       }
  }

  predicate RaceOver(n: Node, f: nat) {
    f < |n.flights| && n.flights[f].st.InRace? && n.flights[f].st.race < |n.races|
    && n.races[n.flights[f].st.race].race.main.Returned?
  }

  predicate Enabled(cfg: Config, n: Node, step: Step) {
    match step
    case Arrive(_, _) => true
    case ReadHit(r) => r < |n.reqs| && n.reqs[r].st.Arrived? && n.reqs[r].key in n.disk
    case ReadMiss(r) => r < |n.reqs| && n.reqs[r].st.Arrived?
    case TouchHit(r) => r < |n.reqs| && (n.reqs[r].st.HitRead? || n.reqs[r].st.HeadFound?) && n.lock.Free?
    case ServeHit(r) => r < |n.reqs| && n.reqs[r].st.HitTouched?
    case Decide(f, live) => f < |n.flights| && n.flights[f].st.Deciding? && (live ==> cfg.peers != [] && n.sticky.Some?)
    case RaceStep(q, rs) => q < |n.races| && RaceEnabled(cfg, n, q, rs)
    case RaceReturn(f) => RaceOver(n, f)
    case Probe(f, found, _, issued) =>
      f < |n.flights| && n.flights[f].st.Probing? && issued <= |cfg.peers| && (found.Some? ==> found.value in cfg.peers)
    case Acquire(f) => f < |n.flights| && n.flights[f].st.PlainStart?
    case Cancel(f) => cfg.cap.Some? && f < |n.flights| && (n.flights[f].st.PlainStart? || n.flights[f].st.Queued?)
    case Fetch(f, got, issued) =>
      f < |n.flights| && n.flights[f].st.Holding? && issued <= cfg.candidates
      && (got.Err? ==> got.code == 409 || got.code == 502)
    case Write(f, _) => f < |n.flights| && n.flights[f].st.Fetched?
    case RecordStart(f) => f < |n.flights| && n.flights[f].st.Written? && n.lock.Free?
    case EvictPop(low) => n.lock.Busy? && n.lock.popped.None? && n.lru != [] && Over(cfg, n.lru, low)
    case EvictDel => n.lock.Busy? && n.lock.popped.Some?
    case EvictEnd(low) =>
      n.lock.Busy? && n.lock.popped.None? && (n.lru == [] || !Over(cfg, n.lru, low))
      && n.lock.flight < |n.flights| && n.flights[n.lock.flight].st.Recording?
    case Settle(f) => f < |n.flights| && n.flights[f].st.Recorded?
    case Release(f) => f < |n.flights| && n.flights[f].st.Releasing? && (cfg.cap.Some? ==> 0 < n.used)
    case Wake(r) =>
      r < |n.reqs| && n.reqs[r].st.Waiting? && n.reqs[r].st.flight < |n.flights|
      && n.flights[n.reqs[r].st.flight].st.Finished?
  }

  function SetReq(n: Node, r: nat, st: ReqState): Node
    requires r < |n.reqs|
  {
    n.(reqs := n.reqs[r := n.reqs[r].(st := st)])
  }

  function SetFlight(n: Node, f: nat, st: FlightState): Node
    requires f < |n.flights|
  {
    n.(flights := n.flights[f := n.flights[f].(st := st)])
  }

  /** The flight's function returns: singleflight forgets the key and its waiters may wake. */
  function Finish(n: Node, f: nat, result: Result): Node
    requires f < |n.flights|
  {
    SetFlight(n, f, Finished(result)).(sf := n.sf - {n.flights[f].key})
  }

  /** A new race against target, after `issued` probes. */
  function StartRace(n: Node, f: nat, target: PeerId, sticky: bool, issued: nat): Node
    requires f < |n.flights|
  {
    var q, fl := |n.races|, n.flights[f];
    n.(flights := n.flights[f := fl.(st := InRace(q, sticky), races := fl.races + [q], heads := fl.heads + issued)],
       races := n.races + [RaceRec(f, target, R.START)])
  }

  /** release: the longest-blocked sender, if any, takes over the slot. */
  function FreeSlot(cfg: Config, n: Node): Node
    requires cfg.cap.Some? ==> 0 < n.used
  {
    if cfg.cap.None? then n
    else if n.queue != [] && n.queue[0] < |n.flights| then
      SetFlight(n, n.queue[0], Holding).(queue := n.queue[1..])
    else n.(used := n.used - 1)
  }

  function Apply(cfg: Config, n: Node, step: Step): Node
    requires Enabled(cfg, n, step)
  {
    match step
    case Arrive(kind, key) =>
      n.(reqs := n.reqs + [Request(kind, key, if key.range == "" then Failed(400) else Arrived)])
    case ReadHit(r) =>
      SetReq(n, r, if n.reqs[r].kind.Head? then HeadFound else HitRead(n.disk[n.reqs[r].key]))
    case ReadMiss(r) => Miss(n, r)
    case TouchHit(r) =>
      SetReq(n, r, if n.reqs[r].st.HeadFound? then HeadOk else HitTouched(n.reqs[r].st.body))
      .(lru := Touch(n.lru, n.reqs[r].key))
    case ServeHit(r) =>
      var body := n.reqs[r].st.body;
      SetReq(n, r, Served(body, true)).(c := n.c.(hits := n.c.hits + 1, served := n.c.served + |body|))
    case Decide(f, live) =>
      if cfg.peers == [] then SetFlight(n, f, PlainStart)
      else if live then StartRace(n, f, n.sticky.value, true, 0)
      else SetFlight(n, f, Probing)
    case RaceStep(q, rs) => AdvanceRace(cfg, n, q, rs)
    case RaceReturn(f) => LeaveRace(n, f)
    case Probe(f, found, timedOut, issued) =>
      if found.Some? then StartRace(n, f, found.value, false, issued) else ProbeFailed(n, f, timedOut, issued)
    case Acquire(f) =>
      if cfg.cap.None? then SetFlight(n, f, Holding)
      else if n.used < cfg.cap.value then SetFlight(n, f, Holding).(used := n.used + 1)
      else SetFlight(n, f, Queued).(queue := n.queue + [f])
    case Cancel(f) => Finish(n, f, Err(503)).(queue := Removed(n.queue, f))
    case Fetch(f, got, issued) =>
      var st := if got.Ok? then Fetched(got.body, ViaPlain) else Releasing(got);
      n.(flights := n.flights[f := n.flights[f].(gets := n.flights[f].gets + issued, st := st)])
    case Write(f, ok) => StoreBody(n, f, ok)
    case RecordStart(f) =>
      var st := n.flights[f].st;
      SetFlight(n, f, Recording(st.body, st.via))
      .(lru := Put(n.lru, n.flights[f].key, |st.body|), lock := Busy(f, None))
    case EvictPop(_) => n.(lru := n.lru[1..], lock := Busy(n.lock.flight, Some(n.lru[0])))
    case EvictDel => n.(disk := n.disk - {n.lock.popped.value.key}, lock := Busy(n.lock.flight, None))
    case EvictEnd(_) =>
      var st := n.flights[n.lock.flight].st;
      SetFlight(n, n.lock.flight, Recorded(st.body, st.via)).(lock := Free)
    case Settle(f) => Settled(n, f)
    case Release(f) => FreeSlot(cfg, Finish(n, f, n.flights[f].st.result))
    case Wake(r) => Answer(n, r)
  }

  /** A failed read: a HEAD or a peer's GET is answered 404; a client joins or leads a flight. */
  function Miss(n: Node, r: nat): Node
    requires r < |n.reqs|
  {
    var key := n.reqs[r].key;
    if !n.reqs[r].kind.ClientGet? then SetReq(n, r, NotFound)
    else if key in n.sf then SetReq(n, r, Waiting(n.sf[key]))
    else
      var f := |n.flights|;
      SetReq(n, r, Waiting(f))
      .(flights := n.flights + [Flight(key, r, Deciding, [], 0, 0, false)], sf := n.sf[key := f])
  }

  function AdvanceRace(cfg: Config, n: Node, q: nat, rs: R.Step): Node
    requires q < |n.races| && RaceEnabled(cfg, n, q, rs)
  {
    var n1 := n.(races := n.races[q := n.races[q].(race := R.Apply(n.races[q].race, rs))],
                 c := n.c.(hedge := R.Book(n.c.hedge, n.races[q].race, rs)));
    if rs.CdnGrant? && cfg.cap.Some? then n1.(used := n.used + 1)
    else if rs.CdnRelease? then FreeSlot(cfg, n1)
    else n1
  }

  /** fetchFromPeer after raceOnePeer: update the sticky pointer, book a win, or go on looking. */
  function LeaveRace(n: Node, f: nat): Node
    requires RaceOver(n, f)
  {
    var st := n.flights[f].st;
    var rec := n.races[st.race];
    var out := rec.race.main;
    if out.ok && out.src.SrcPeer? then
      SetFlight(n, f, Fetched(out.body, ViaPeer))
      .(sticky := Some(rec.target),
        c := n.c.(peerHits := n.c.peerHits + 1, peerBytes := n.c.peerBytes + |out.body|))
    else if out.ok then
      SetFlight(n, f, Fetched(out.body, ViaHedge))
      .(sticky := None,
        c := n.c.(wan := n.c.wan + |out.body|, hedgeCdnBytes := n.c.hedgeCdnBytes + |out.body|),
        t := n.t.(hedgeFlights := n.t.hedgeFlights + 1))
    else if st.sticky then
      SetFlight(n, f, Probing).(sticky := None)
    else
      SetFlight(n, f, PlainStart).(c := n.c.(peerMisses := n.c.peerMisses + 1))
  }

  /** fanoutProbe found no peer: the plain path is next. */
  function ProbeFailed(n: Node, f: nat, timedOut: bool, issued: nat): Node
    requires f < |n.flights|
  {
    n.(flights := n.flights[f := n.flights[f].(heads := n.flights[f].heads + issued, st := PlainStart)],
       c := n.c.(peerMisses := n.c.peerMisses + 1,
                 probeTimeouts := n.c.probeTimeouts + (if timedOut then 1 else 0)))
  }

  /** writeCacheFileAtomic: the rename either puts the whole body in place or changes nothing. */
  function StoreBody(n: Node, f: nat, ok: bool): Node
    requires f < |n.flights| && n.flights[f].st.Fetched?
  {
    var st := n.flights[f].st;
    if ok then
      SetFlight(n, f, Written(st.body, st.via)).(disk := n.disk[n.flights[f].key := st.body])
    else if st.via.ViaPlain? then
      SetFlight(n, f, Releasing(Err(500)))
    else
      Finish(n, f, Err(500))
      .(t := n.t.(failedBytes := n.t.failedBytes + |st.body|, failedWrites := n.t.failedWrites + 1))
  }

  function Settled(n: Node, f: nat): Node
    requires f < |n.flights| && n.flights[f].st.Recorded?
  {
    var st := n.flights[f].st;
    if st.via.ViaPlain? then
      SetFlight(n, f, Releasing(Ok(st.body)))
      .(c := n.c.(misses := n.c.misses + 1, wan := n.c.wan + |st.body|),
        t := n.t.(plainFlights := n.t.plainFlights + 1))
    else
      Finish(n, f, Ok(st.body)).(c := n.c.(misses := n.c.misses + 1))
  }

  /** A waiter of a finished flight is answered; served_bytes grows once per waiter. */
  function Answer(n: Node, r: nat): Node
    requires r < |n.reqs| && n.reqs[r].st.Waiting? && n.reqs[r].st.flight < |n.flights|
    requires n.flights[n.reqs[r].st.flight].st.Finished?
  {
    var f := n.reqs[r].st.flight;
    var result := n.flights[f].st.result;
    var size := if result.Ok? then |result.body| else 0;
    var leads := n.flights[f].leader == r;
    SetReq(n, r, if result.Ok? then Served(result.body, false) else Failed(result.code))
    .(c := n.c.(served := n.c.served + size),
      t := if leads then n.t.(leadServed := n.t.leadServed + size) else n.t,
      flights := if leads then n.flights[f := n.flights[f].(paid := true)] else n.flights)
  }

  // ---- runs ----

  /** n is reached from first by the steps, in order. */
  ghost predicate Run(cfg: Config, first: Node, steps: seq<Step>, n: Node)
    decreases |steps|
  {
    if steps == [] then
      n == first && Init(cfg, first)
    else
      var before, last := steps[..|steps| - 1], steps[|steps| - 1];
      exists m :: Run(cfg, first, before, m) && Enabled(cfg, m, last) && n == Apply(cfg, m, last)
  }
}
