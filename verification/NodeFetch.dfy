/** The fetches of a node (shim-go/xorb.go:31-88, 169-180): what fetchAuthorized and the read behind it do is a step
    the node allows, within its bound on requests. */
module NodeFetch {
  import opened Types
  import R = Race
  import N = Node
  import opened SignedUrls

  /** How reading an authorized response ends. */
  datatype Read = Whole(body: Body) | Broken(got: nat)

  /** The plain path: a failed fetch keeps its status, a broken read is a 502. */
  function PlainResult(r: Outcome, read: Read): N.Result {
    match r
    case Failed(status, _) => if status == 409 then N.Err(409) else N.Err(502)
    case Response(_) => if read.Whole? then N.Ok(read.body) else N.Err(502)
  }

  /** The hedge: any failure is the same, and the bytes read so far are its cost. */
  function HedgePull(r: Outcome, read: Read): R.Answer {
    match r
    case Failed(_, _) => R.FAILURE
    case Response(_) =>
      match read
      case Whole(body) => R.Answer(true, body, |body|)
      case Broken(got) => R.Answer(false, [], got)
  }

  /** A fetch that looked hash up after a history of calls, on a node that keeps that many candidates. */
  ghost predicate Fetches(cfg: N.Config, u: Setup, calls: seq<Call>, hash: string, now: int, reply: string -> Reply,
                          live: nat, r: Outcome, tried: nat) {
    && cfg.candidates == u.cap && Ordered(calls) && (forall i :: 0 <= i < |calls| ==> calls[i].now <= now)
    && TriedInOrder(Listed(TtlMap.Found(AfterCalls(TtlMap.EMPTY, calls, u), hash, now)), reply, live, r, tried)
  }

  lemma FetchIsBounded(cfg: N.Config, u: Setup, calls: seq<Call>, hash: string, now: int, reply: string -> Reply,
                       live: nat, r: Outcome, tried: nat)
    requires Fetches(cfg, u, calls, hash, now, reply, live, r, tried)
    ensures tried <= cfg.candidates
  {
    CandidatesBounded(calls, hash, now, u);
  }

  /** A fetch of the plain path is a step of its node: what it tried is within the bound of the step. */
  lemma PlainFetchIsStep(cfg: N.Config, n: N.Node, f: nat, u: Setup, calls: seq<Call>, now: int,
                         reply: string -> Reply, live: nat, r: Outcome, tried: nat, read: Read)
    requires f < |n.flights| && n.flights[f].st.Holding?
    requires Fetches(cfg, u, calls, n.flights[f].key.hash, now, reply, live, r, tried)
    ensures N.Enabled(cfg, n, N.Fetch(f, PlainResult(r, read), tried))
    ensures PlainResult(r, read) == N.Err(409) <==>
            Listed(TtlMap.Found(AfterCalls(TtlMap.EMPTY, calls, u), n.flights[f].key.hash, now)) == []
  {
    FetchIsBounded(cfg, u, calls, n.flights[f].key.hash, now, reply, live, r, tried);
  }

  /** A hedge's pull is a step of its node. */
  lemma HedgePullIsStep(cfg: N.Config, n: N.Node, q: nat, u: Setup, calls: seq<Call>, hash: string, now: int,
                        reply: string -> Reply, live: nat, r: Outcome, tried: nat, read: Read)
    requires q < |n.races| && n.races[q].race.cdn.CdnHolding?
    requires Fetches(cfg, u, calls, hash, now, reply, live, r, tried)
    ensures N.Enabled(cfg, n, N.RaceStep(q, R.CdnFetch(HedgePull(r, read), tried)))
  {
    FetchIsBounded(cfg, u, calls, hash, now, reply, live, r, tried);
  }
}
