# A model of the xet cache shim

The shim is a caching proxy for content-addressed byte ranges ("xorbs"). A fleet of nodes keeps ranges on local disk,
asks sibling nodes before the CDN, hedges a slow peer with a CDN pull, and evicts by least recent use. This project
models that program and its companion cache simulator in Dafny and proves what holds over every input, every history
and every interleaving. `dafny verify dfyconfig.toml` checks all of it.

The model, from the inside out:

- **Races.** `Race` is the hedged race of one flight as a step system: the caller's select loop, the peer goroutine, the
  CDN goroutine, the drain goroutine and two one-place channels. `RaceTiming` puts the same steps on a clock in which a
  ready goroutine acts before time moves on, and `MissTiming` a whole miss: race, probe, race and plain pull.
  `PeerStats` computes the head start. `Probes` is the fan-out that looks for a peer worth racing.
- **Nodes.** `Node` is one cache node: requests, singleflight flights, races, the fetch semaphore with its blocked
  senders, the LRU with its lock, the files, the sticky peer and the counters. One step is one thing another goroutine
  could observe; write and `Record` are separate steps, and so are the removal of an entry and of its file. A step's
  label carries every choice left to the clock, the network, the scheduler and the disk. `NodeShape`, `NodeLosers`,
  `NodeSlots`, `NodeLedger`, `NodeDisk`, `NodeWork` and `NodeTruth` hold one invariant each; `NodeSearch` says when the
  peer search gives up, `NodeProgress` that every request is answered, and `NodeRecord` and `NodeFetch` that the steps
  of a Record and of a fetch are what the accountant and the candidate list do. `Boot` connects the directory scan to
  the first state. `Witnesses` are runs that exist.
- **Fleets.** `Fleet` lets any number of nodes name each other as peers; a body a peer delivers is the one that peer
  served. `FleetWaits` is the wait-for graph, and `FleetProgress` bounds all the moves of a fleet.
- **Caches.** `LruSpec` says on sequences what the LRU does; `Lru` is the list, map and running total on the heap.
  `Simulator` is the Python cache of the placement study, `Replay` its replay loop, and `LruCompare` relates the two
  caches with each other and each with itself at another capacity.
- **Bounded stores.** `TtlMap` is the expiring map, `SignedUrls` the candidate lists kept in it, the fetch that tries
  them and the manifest rewrite that fills them. `Manifests` is the manifest cache with its file names.
- **Text and numbers.** `Ranges` and `Decimal` are Range headers in 64-bit arithmetic, as in section 4.2 of RFC 7233 for
  the label of a hit. `Histograms`, `Prometheus`, `Exposition` and `Scrape` go from an observation to the metrics page
  and back through the scraper's parser. `Ages` orders files found at boot; `Types` and `Seqs` are shared vocabulary.

Where code and comments disagree the model follows the code:

- shim-go/peer_hedge.go:50-51 says a race gives up only when both sides fail. A peer that fails before the timer also
  ends it, without a CDN attempt (shim-go/peer_hedge.go:82-85): `Witnesses.GivesUpWithoutCdn` is such a schedule, and
  `Race.OutcomeInEverySchedule` states exactly when a race gives up.
- shim-go/peer_fetch.go:11-13 says a race that runs returns ok. `fetchFromPeer` returns not-ok after a failed race too,
  as in the run of `Witnesses.RaceRunsInVain`; `NodeSearch.GivesUpExactly` says that it does so exactly when neither
  side delivered in any race of the flight.
- shim-go/metrics.go:106-111 calls the effective hit rate a share of requests. A peer win whose file cannot be written is
  counted among the served and not among the requests: `Witnesses.HitRateCanExceedOne` is a run with rate 2, and
  `NodeLedger.DerivedGauges` says exactly when the rate is at most 1.
- shim-go/metrics.go:63-64 clamps a slot beyond the last one. The search never returns one: `Histograms.Slot` is at most
  the overflow slot, which exists.
- study/placement_locality_sim.py:88-89 assumes the dictionary holds what `_used_bytes` says. It does unless an object is
  put again with another size; then the loop can reach an empty dictionary. `Simulator.PutKeepsExact` and
  `Simulator.PutRaisesExactly` say exactly when, `Simulator.ResizeMakesPutRaise` gives such a trace.
- The simulator bypasses an object larger than the cache, the service evicts everything for it. They agree after every
  prefix of a trace exactly when no request for such an object directly follows one for an object that fits:
  `LruCompare.TracesAgreeExactly`.
- shim-go/xorb.go:14-15 promises each remembered url a place in the list. Overlapping calls for one hash can drop one
  call's url; `SignedUrls.OverlapOnStore` says exactly when they do no harm.
- shim-go/manifests.go:13-14 promises one file per range. `Manifests.PathInjective` holds for absent or single-pair
  ranges and versions without an underscore. `Manifests.SharedFile` says exactly which requests share a file, whatever
  their parts; `Manifests.VersionsCollide`, `Manifests.FileIdsCollide` and `Manifests.RangeKeyCollides` say it for each
  part alone, with `Manifests.UnderscoresCollide`, `Manifests.FileIdCollides` and `Manifests.MultiRangesCollide` as
  instances.

## Model

| member | source | states |
|---|---|---|
| `Race.OutcomeInEverySchedule` | shim-go/peer_hedge.go:56-130 | in every schedule a race gives up if and only if the peer failed and the hedge never ran or failed too; a win carries the winner's own body |
| `Race.NoSenderBlocks` | shim-go/peer_hedge.go:63-71 | in every schedule each goroutine that is ready to send finds room in its channel, and a schedule with no further step has finished every goroutine, drain included |
| `Race.NextStep` | shim-go/xorb.go:69-88 | an unfinished race always has a next step, whether or not the pool has a slot for its hedge |
| `Race.ScheduleKeepsInv` | shim-go/peer_hedge.go:96-129 | every schedule keeps the agreement of select loop, goroutines, channels and drain |
| `RaceTiming.RaceLatency` | shim-go/peer_hedge.go:40-48 | when both sides would succeed and the hedge gets a slot, the race returns at exactly min(P, d + C) |
| `RaceTiming.HedgeGuarantee` | shim-go/peer_hedge.go:44-48 | with a slot and a succeeding CDN a race is over by d + C whatever the peer does, and gives up only if the peer failed no later than the timer |
| `RaceTiming.NoSlotEndsWithPeer` | shim-go/peer_fetch.go:128-132 | a race whose hedge gets no slot ends exactly when peerGet does, so by the fetch timeout when that is set, and succeeds only if the peer's answer was in by then |
| `RaceTiming.TimeProgresses` | shim-go/peer_hedge.go:73-130 | an open race can always act or let time pass |
| `MissTiming.RaceBound` | shim-go/peer_hedge.go:60-61 | one healthy race is over within the head start's cap plus one pull, and within the cap when it is lost |
| `MissTiming.MissLatency` | shim-go/peer_fetch.go:14-49 | in every timed run of a miss with a CDN that answers within C and free slots, the flight is served by 2·hedgeMaxMs + probeTimeout + C and is never open after that |
| `MissTiming.MoveKeepsSchedule` | shim-go/peer_fetch.go:27-48 | each phase of a miss begins where the one before it gives up, within the sum of the earlier bounds |
| `MissTiming.MissProgresses` | shim-go/peer_fetch.go:14-49 | until it is served a miss can always move or let time pass |
| `PeerStats.PeerStats.HedgeDelay` | shim-go/peers.go:97-112 | the delay never exceeds the cap and keeps the floor when that is not above it; an unknown peer gets the cap; a prediction within the bounds is the delay to the millisecond |
| `PeerStats.DelayIsPrediction` | shim-go/peers.go:104-111 | a prediction between floor and cap is the delay, cut to whole milliseconds |
| `PeerStats.PeerStats.Update` | shim-go/peers.go:117-130 | one peer's entry is blended with the sample, all others stay |
| `PeerStats.EntryIsEstimate` | shim-go/peers.go:87-130 | after any updates a peer's entry is the moving average of its own samples, in their order |
| `PeerStats.EstimateWithinSamples` | shim-go/peers.go:117-130 | an estimate never leaves the span of the samples behind it |
| `PeerStats.EqualSamplesConverge` | shim-go/peers.go:80-130 | k further samples of one value shrink the distance to it by exactly 0.7^k |
| `PeerStats.DelayBounds` | shim-go/peers.go:97-112 | the delay never exceeds maxMs, and is at least minMs when minMs does not exceed maxMs |
| `PeerStats.DelayMonotone` | shim-go/peers.go:104-111 | the delay never falls with the size and never rises with the throughput |
| `NodeShape.RunKeepsShape` | shim-go/xorb.go:106-205 | over every run the singleflight map holds exactly the unfinished flights, the LRU lock and the queue exactly the flights that hold or await them |
| `NodeSlots.SlotDiscipline` | shim-go/server.go:87-123 | over every run the pool counts its owners one for one within the cap; a flight blocked in acquire owns none, and neither does any goroutine of its races; while one is blocked no hedge can be granted a slot, and no release blocks |
| `NodeLosers.SearchHoldsNothing` | shim-go/peer_hedge.go:116-127 | over every run a flight that goes on without its race has no CDN goroutine left that holds a slot |
| `NodeSlots.NoDeadlock` | shim-go/xorb.go:169-176 | while a request is unanswered some step of the node's own is possible, whatever the cap |
| `NodeProgress.EveryRequestIsAnswered` | shim-go/xorb.go:106-205 | without further arrivals a reachable node makes at most a computed number of steps, in any order, and none is left only when every request is answered |
| `NodeProgress.StepUses` | shim-go/xorb.go:106-205 | every step but an arrival uses up some of that number |
| `NodeProgress.CanAnswer` | shim-go/xorb.go:106-205 | from every reachable state a run of the node's own steps answers everyone |
| `NodeSlots.RunKeepsSlots` | shim-go/server.go:90-123 | every acquisition has one owner and is released once: used slots equal owners in every reachable state |
| `NodeLedger.Conservation` | shim-go/xorb.go:152-204 | over every run, once all requests are answered: served + bytes of race-won flights whose write failed ≥ wan + peer bytes; misses + those failures = peer hits + hedge-won + plain flights; hedge CDN bytes ≤ wan bytes |
| `NodeLedger.DerivedGauges` | shim-go/metrics.go:93-113 | without such failures bytes saved ≥ peer bytes and the effective hit rate is at most 1; in general it is at most 1 exactly when the failures do not outnumber the flights the CDN won |
| `NodeLedger.HedgeAccounting` | shim-go/peer_hedge.go:88-128 | hedges fired = peer wins + CDN wins + races whose first finisher failed; wasted bytes are exactly those the losing pulls had read |
| `NodeLedger.RunKeepsLedger` | shim-go/peer_fetch.go:61-75 | in every reachable state the books differ from balance by exactly what unfinished flights have booked |
| `Witnesses.HitRateCanExceedOne` | shim-go/metrics.go:104-111 | a run at rest whose effective hit rate is 2 |
| `Witnesses.RaceRunsInVain` | shim-go/peer_fetch.go:27-48 | a run in which a race ran and the flight is left to the plain path |
| `NodeSearch.GivesUpExactly` | shim-go/peer_fetch.go:14-49 | over every run, a flight past the peer search is on the plain path if and only if neither side delivered in any race it ran; otherwise it holds the body its last race won, having lost the others |
| `NodeSearch.RunKeepsSearch` | shim-go/xorb.go:138-176 | in every reachable state the races of a flight were lost, save the one it is in or has its body from |
| `Witnesses.GivesUpWithoutCdn` | shim-go/peer_hedge.go:82-85 | a schedule in which the race gives up and the CDN was never asked |
| `NodeDisk.DiskBudget` | shim-go/lru.go:72-105 | in every reachable state the files weigh at most the byte budget, plus writes not fully recorded, plus leftovers boot could not list |
| `NodeDisk.FilesAreAccounted` | shim-go/xorb.go:152-193 | each file is an LRU entry of its size, a write pending its Record, an eviction under way, or such a leftover |
| `NodeDisk.RunKeepsDisk` | shim-go/main.go:100-104 | every step of every interleaving keeps files, entries and pending writes in agreement |
| `NodeDisk.CoverBounds` | shim-go/lru.go:10-15 | files each covered by an entry of their size weigh no more than the entries |
| `NodeRecord.RecordIsRun` | shim-go/lru.go:72-105 | an undisturbed Record is a run of the node's steps that ends with the entries eviction keeps and without exactly the dropped files |
| `NodeWork.BoundedWork` | shim-go/peer_fetch.go:14-109 | a flight issues at most one HEAD per peer, two peer GETs and three rounds of candidate urls, and no two unfinished flights share a key |
| `NodeFetch.PlainFetchIsStep` | shim-go/xorb.go:174-182 | after any history of remembered urls, what fetchAuthorized and the read behind it do is an enabled step of the node, with its GETs within the bound the step asserts, and a 409 exactly when no url is live |
| `NodeFetch.HedgePullIsStep` | shim-go/xorb.go:69-88 | the same for the pull of a hedge |
| `Probes.OutcomeInEverySchedule` | shim-go/peer_fetch.go:77-110 | in every schedule of goroutines, replies and deadline a peer the probe names said it has the range, and a probe that ends in time names none if and only if every peer was heard out and none has it |
| `Probes.NoReportIsLost` | shim-go/peer_fetch.go:81-98 | no peer is asked twice or after the probe has returned, a report always finds room in the channel and never finds it closed |
| `Probes.EveryProbeEnds` | shim-go/peer_fetch.go:81-98 | a probe of k peers has at most 3k + 3 steps, and none is left only when the caller has returned, every goroutine is done and the channel is closed |
| `Probes.ProbeIsStep` | shim-go/peer_fetch.go:77-110 | a finished probe of a node's peers is an enabled step of that node, with its HEADs within the bound the step asserts |
| `NodeTruth.StepKeepsTruth` | shim-go/xorb.go:128-205 | if bodies that enter a node are the CDN's, so are all bodies it stores, sends or serves |
| `Fleet.FleetByteIntegrity` | shim-go/peer_fetch.go:125-155 | in every interleaving of any mutually peered fleet each cached file and each 206 body equals the CDN body of its key |
| `Fleet.FleetKeepsInv` | shim-go/xorb.go:146-150 | every move of a fleet keeps each node's invariants and ties each peer GET to a peer-marked request for the same key |
| `FleetWaits.NoWaitCycle` | shim-go/xorb.go:117-176 | no chain of waits in a fleet, for locks, slots, flights, hedges, peer GETs or probes, closes into a cycle or has more than four links |
| `FleetWaits.PeerRequestWaitsForNoNode` | shim-go/xorb.go:90-95 | a peer-marked request waits for no other node and no fetch, only for a Record in progress on its own node |
| `FleetProgress.FleetAnswersEveryRequest` | shim-go/xorb.go:90-205 | whatever the peer lists, a fleet makes at most a computed number of moves plus a fixed number for each arrival from outside, in any order, and no node can move by itself only when every request on every node is answered |
| `FleetProgress.MoveUses` | shim-go/peer_fetch.go:14-155 | every move but an outside arrival uses up some of that number, a dial of another node included |
| `FleetProgress.NodeOfFleet` | shim-go/xorb.go:90-205 | each node of a fleet goes through a run of its own |
| `Boot.SeedLru` | shim-go/main.go:250-274 | the LRU after boot holds what the listed entries, oldest first, leave within the limits |
| `Boot.SeedsAreListed` | shim-go/main.go:255-272 | exactly the regular, visible, statted entries are seeded |
| `Boot.BootStartsWithinBudget` | shim-go/main.go:250-274 | whatever files earlier runs left, the booted node is a first state of the runs above |
| `Boot.SeededIsBooted` | shim-go/main.go:250-274 | what seedLRU leaves in an empty accountant is the booted node's LRU, keys under their file names |
| `Boot.SeedFresh` | shim-go/main.go:250-274 | seedLRU on a fresh accountant ends in the LRU of the booted node |
| `Lru.LruCache.Record` | shim-go/lru.go:72-84 | the represented sequence becomes the recorded key put last, then evicted from the front; deletions are logged oldest first |
| `Lru.LruCache.Load` | shim-go/lru.go:51-62 | seeds enter oldest first, the first of a key wins, then eviction |
| `Lru.LruCache.Touch` | shim-go/lru.go:64-70 | a held key's entry moves to the end, nothing else changes |
| `Lru.LruCache.Forget` | shim-go/lru.go:86-94 | the key's entry leaves list, map and total |
| `Lru.LruCache.EvictLocked` | shim-go/lru.go:96-105 | exactly the entries that must go are removed, one deletion each, oldest first; the loop ends even if free space never recovers |
| `Lru.LruCache.MapAgrees` | shim-go/lru.go:16-25 | list and map represent one duplicate-free sequence |
| `Lru.UnlinkedEntries` | shim-go/lru.go:86-94 | unlinking the element of a key removes that key's entry and no other |
| `LruSpec.KeptIsFitRun` | shim-go/lru.go:96-121 | with only the byte budget set, what is kept is the longest most-recent run that fits |
| `LruSpec.FitRunIsLongest` | shim-go/lru.go:96-105 | that run fits, and every longer one does not |
| `LruSpec.KeptWithinBudget` | shim-go/lru.go:113-121 | what eviction leaves is within the byte budget, whatever the disk gauge says |
| `LruSpec.StuckGaugeEvictsAll` | shim-go/lru.go:107-121 | a gauge that never recovers empties the cache and stops there |
| `LruSpec.PutKeeps` | shim-go/lru.go:72-84 | recording keeps keys distinct and moves the total by the change of that key's size |
| `Simulator.SimCache.Get` | study/placement_locality_sim.py:69-79 | a hit exactly when the key is held and not stale; a stale key is evicted, a held one moves to the end |
| `Simulator.SimCache.Put` | study/placement_locality_sim.py:81-91 | the put of the specification, or failure when eviction meets an empty dictionary |
| `Simulator.PutRaisesExactly` | study/placement_locality_sim.py:81-91 | a put raises if and only if the byte count overstates the entries by more than the room asked for |
| `Simulator.PutKeepsExact` | study/placement_locality_sim.py:81-95 | a put keeps the byte count exact if and only if it does not resize a held object |
| `Simulator.RoomIsFitRun` | study/placement_locality_sim.py:88-89 | making room keeps the longest most-recent run that leaves the room |
| `Simulator.ResizeMakesPutRaise` | study/placement_locality_sim.py:82-89 | a trace with a shrinking object on which a put raises |
| `Replay.Simulate` | study/placement_locality_sim.py:113-138 | each event's flag is whether its model is held by its node's cache after that node's earlier events |
| `Replay.FixedSizesNeverRaise` | study/placement_locality_sim.py:125-138 | with one size per model no replay raises, at any capacity and time to live |
| `LruCompare.SimulatorEqualsService` | study/placement_locality_sim.py:69-95 | on every trace without an oversized object and without a time to live, simulator and service hit on the same requests and end with the same contents in the same order |
| `LruCompare.OversizeDiverges` | study/placement_locality_sim.py:86-87 | after a miss from equal contents they stay equal if and only if the object fits or the cache was empty |
| `LruCompare.TracesAgreeExactly` | study/placement_locality_sim.py:69-95 | simulator and service hold the same after every prefix of a trace if and only if no request for an oversized object directly follows one for an object that fits |
| `LruCompare.ServedEmpty` | shim-go/lru.go:72-105 | the service's cache is empty exactly at the start and after a request for an oversized object |
| `LruCompare.ServeStepIsRecord` | shim-go/lru.go:64-105 | the service step compared is the accountant's own Record |
| `LruCompare.SimulatorIsSound` | study/placement_locality_sim.py:69-95 | over every trace with per-key sizes: no exception, exact byte count, never above capacity |
| `LruCompare.ServiceStackInclusion` | shim-go/lru.go:64-105 | the smaller service cache always holds the most recent part of what the larger one holds, oversized objects included |
| `LruCompare.ServedHitsMonotone` | shim-go/lru.go:64-105 | so a request that hits at one capacity hits at every larger one |
| `LruCompare.SimulatorStackInclusion` | study/placement_locality_sim.py:69-95 | the same for the simulator with any time to live when no object exceeds the smaller capacity |
| `LruCompare.SimulatedHitsMonotone` | study/placement_locality_sim.py:113-138 | so simulated hits never fall as capacity grows |
| `TtlMap.TTLMap.Set` | shim-go/signedmap.go:34-50 | the key becomes the newest with a fresh expiry, oldest keys beyond max are dropped, list and map stay in agreement |
| `TtlMap.TTLMap.Get` | shim-go/signedmap.go:52-66 | an unexpired value is returned, an expired entry is removed |
| `TtlMap.TTLMap.Len` | shim-go/signedmap.go:68-72 | the number of entries in list and map alike |
| `TtlMap.GetMeetsHistory` | shim-go/signedmap.go:34-66 | after any history with a clock that never runs back, a Get returns exactly the last Set's value when it has not expired and fewer than max other keys were Set since, and nothing otherwise; the list is sorted by expiry and within max |
| `TtlMap.TrimKeeps` | shim-go/signedmap.go:45-49 | dropping the oldest key loses only a key that max others have followed |
| `SignedUrls.NextCandidates` | shim-go/xorb.go:18-27 | the new list is the url first, the earlier ones without it after, cut to the cap |
| `SignedUrls.RememberSigned` | shim-go/xorb.go:16-29 | the store makes one remembering step |
| `SignedUrls.RememberOne` | shim-go/xorb.go:14-29 | remembering a url turns the newest distinct urls of a history into those of the longer history |
| `SignedUrls.CandidatesMeetHistory` | shim-go/xorb.go:16-29 | after any history a lookup finds, exactly when the hash is live, the newest cap distinct urls remembered since its entry was last lost |
| `SignedUrls.NewestMember` | shim-go/xorb.go:14-15 | a url is listed exactly when fewer than cap different urls came after its last appearance |
| `SignedUrls.CandidatesBounded` | shim-go/xorb.go:25-27 | after any history a list has no repetition and at most cap urls, so a fetch issues at most cap requests |
| `SignedUrls.OverlapOnStore` | shim-go/xorb.go:16-29 | on the store, two calls for one hash whose Gets both come first leave the list they leave in turn if and only if nothing is displaced: same url, a cap of at most one, or the first call's url already ahead |
| `SignedUrls.OverlapIsHarmless` | shim-go/xorb.go:16-29 | the same on lists |
| `SignedUrls.OverlapLosesUrl` | shim-go/xorb.go:14-29 | two overlapping calls with a new url each and room for two keep one of the urls, which either order of the calls would have listed |
| `SignedUrls.TryCandidates` | shim-go/xorb.go:33-60 | listed urls are tried in order up to the first that authorizes or the cancellation; 409 without a list, else 502 with the last status |
| `SignedUrls.FetchAuthorized` | shim-go/xorb.go:31-60 | an uncancelled fetch succeeds if and only if a live listed url authorizes it; 409 if and only if no non-empty list is live; at most one attempt per listed url |
| `SignedUrls.RewriteManifest` | shim-go/reconstruction.go:9-33 | in any visiting order every string url is remembered in place and replaced by the shim's own; nothing else changes |
| `SignedUrls.RewriteEntries` | shim-go/reconstruction.go:18-31 | the same for the list of one xorb |
| `SignedUrls.RewriteIsCalls` | shim-go/reconstruction.go:17-31 | a rewritten manifest leaves the store of a longer history |
| `SignedUrls.ManifestIsServable` | shim-go/reconstruction.go:9-11 | a xorb given a url by a manifest no larger than the store can be looked up until its ttl ends, and its candidates are the newest of a history ending with the manifest's urls |
| `Manifests.NamesCollide` | shim-go/manifests.go:68-74 | without underscores in version and file id, two requests share a file exactly when only their range headers differ and sanitizing cannot tell those apart |
| `Manifests.RangeKeyCollides` | shim-go/manifests.go:31-73 | which range headers those are: equal but for underscores and unsafe characters, or absent against the placeholder |
| `Manifests.PathInjective` | shim-go/manifests.go:68-74 | for absent or single-pair ranges and versions without an underscore one file serves one request, whatever the file ids |
| `Manifests.UnderscoresCollide` | shim-go/manifests.go:68-74 | with an underscore in a version two requests can share a file |
| `Manifests.VersionsCollide` | shim-go/manifests.go:68-74 | two different versions can share a file if and only if one is the other followed by an underscore and more |
| `Manifests.SharedFile` | shim-go/manifests.go:68-74 | any two requests, whatever their parts: they share a file if and only if their versions agree and their file ids and ranges spell the same, or one version is the other with an underscore and more, and the file ids and ranges spell the same once that rest is put ahead of the file id |
| `Manifests.SharedFileOfOneVersion` | shim-go/manifests.go:68-74 | for versions without an underscore: if and only if the versions agree and either the file ids do and the ranges are indistinct, or one range key spells the rest of the other's file id, an underscore and its key |
| `Manifests.FileIdsCollide` | shim-go/manifests.go:68-74 | two different file ids can share a file under one version if and only if one is the other followed by an underscore and safe characters |
| `Manifests.FileIdCollides` | shim-go/manifests.go:68-74 | such a pair of requests, with an underscore in the file id alone |
| `Manifests.MultiRangesCollide` | shim-go/manifests.go:31-73 | two multi-range headers that share a file |
| `Manifests.StepKeepsInv` | shim-go/manifests.go:90-124 | every interleaved step keeps index set and list equal, without repetition and bounded outside the lock, and every file indexed, pending or being removed |
| `Manifests.RunKeepsInv` | shim-go/manifests.go:90-124 | the same over whole runs |
| `Manifests.LookupIsOwn` | shim-go/manifests.go:76-88 | in every reachable state, what a plain request finds was stored for that very request |
| `Manifests.PutIsRun` | shim-go/manifests.go:90-109 | an undisturbed Put is one such run |
| `Manifests.BootCoversDisk` | shim-go/manifests.go:43-66 | after boot the index is exact and within max, and covers the directory if and only if no file escaped the scan |
| `Manifests.ManifestCache.constructor` | shim-go/manifests.go:33-66 | the state after boot is the scanned files in order of age, trimmed |
| `Manifests.ManifestCache.Put` | shim-go/manifests.go:90-109 | the whole new state, failed encodings and writes changing nothing, and the invariant kept |
| `Manifests.ManifestCache.Get` | shim-go/manifests.go:78-88 | a miss means no file of the request's name; what is found was stored under that name and, among plain requests, for that very request |
| `Manifests.PutThenLookup` | shim-go/manifests.go:90-109 | what a Put stored is what the next lookup of that request finds, bounded or not |
| `Manifests.ManifestCache.TrimLocked` | shim-go/manifests.go:114-124 | oldest entries and their files go until max remain |
| `Ranges.RangeRoundTrip` | shim-go/util.go:39-51 | a printed range parses back to its bounds; only at the last 64-bit offset the upper bound wraps |
| `Ranges.RangeSizeExact` | shim-go/peer_hedge.go:25-31 | the computed size is the real one for every range but the one that spans all offsets |
| `Ranges.AcceptedBodyIsLabelledExactly` | shim-go/peer_fetch.go:150-154 | a body peerGet accepts has exactly the bytes asked for and is later labelled with exactly that range |
| `Ranges.AcceptedBodyLabel` | shim-go/util.go:26-32 | whatever the header's spelling, the label runs from the parsed lower to the parsed upper bound |
| `Decimal.ParsePrinted` | shim-go/util.go:45-46 | a printed integer parses back if and only if it fits 64 bits |
| `Histograms.Search` | shim-go/metrics.go:62 | the binary search finds the first bucket that reaches the sample |
| `Histograms.SlotFrom` | shim-go/metrics.go:62-65 | the slot found is the first bucket at least the sample, or the overflow slot and never beyond |
| `Histograms.SnapshotMeaning` | shim-go/metrics.go:72-91 | after any observations each bucket reports exactly those at most its bound, and all slots together all of them |
| `Histograms.Metrics.Observe` | shim-go/metrics.go:53-68 | one source's histogram takes the observation, the others stay |
| `Histograms.Metrics.Histograms` | shim-go/metrics.go:72-91 | each source's snapshot is its running totals |
| `Prometheus.SampleRoundTrip` | runpod_testbed/harvest/scrape.py:4-31 | a written sample line is read back with its name, labels and value |
| `Prometheus.JoinedLines` | runpod_testbed/harvest/scrape.py:18 | written lines are split back, whatever text follows |
| `Scrape.ParsePrometheus` | runpod_testbed/harvest/scrape.py:8-31 | the rows are those of the lines one by one |
| `Exposition.MetricRoundTrip` | shim-go/prometheus.go:116-129 | a counter or gauge comes back as one row with its value |
| `Exposition.PromHistogram` | shim-go/prometheus.go:94-114 | the page's text for the sources in sorted order |
| `Exposition.HistogramRoundTrip` | shim-go/prometheus.go:94-114 | parsing what was printed yields one row per printed sample, in order |
| `Exposition.ScrapedBucket` | shim-go/prometheus.go:105-110 | for each source and bound the scrape has exactly one value: the number of observations at most the bound |
| `Exposition.ScrapedTotals` | shim-go/prometheus.go:109-112 | the +Inf bucket and the count are all the source's observations |

## Left out

- SHA-256, JSON, temporary files: a cache key is the pair of hash and range, decoded JSON is a tree, an atomic write puts a whole body in place or changes nothing.
- 64-bit overflow outside `Ranges`: sizes, totals and counters are unbounded.
- Floating point: throughput, delays, hit rates and samples are real numbers; rounding of the hit rates is not modelled.
- singleflight, container/list and sort are taken at their documented behaviour; where a sort leaves equal times open, every order is covered by the lemmas and the methods use one.
- HTTP headers, request construction, authentication, keep-alive and transport tuning: upstream and peer calls are arbitrary results, except that a delivered peer body is the one the peer served.
- The node model counts requests, bytes and races; `Metrics.Incr` and `Snapshot` are not modelled as objects, and the latency observed at the end of a request is modelled only as a sequence of samples.
- A whole fan-out probe and a whole fetch are one step of the node each, justified by `Probes.ProbeIsStep`, `NodeFetch.PlainFetchIsStep` and `NodeFetch.HedgePullIsStep`; whether the sticky pointer is still live is a free choice of each flight.
- A probe's HEAD reaches the other node as a request from outside the fleet: `FleetWaits` lets a probing flight wait for any HEAD for its key, and `FleetProgress` counts each as an arrival.
- Time in a fleet: only the races and the miss path of one request are timed; the wait for a slot counts into the plain pull.
- The context of a flight's leader ending early appears as cancelled acquires, failed peer calls and failed pulls.
- `os.Remove` removes the file or finds it gone; a file that cannot be removed is not modelled.
- The peer list and the settings of a node never change while it runs.
- RemoveAll, repair and integrity tools, the proxy paths and the reconstruction relay beyond the manifest rewrite.
- CandidatesMeetHistory: covers `rememberSigned` calls one at a time, because overlapping ones can lose urls (`SignedUrls.OverlapOnStore`); one manifest rewrite happens at one instant.
- A negative SIGNED_CANDIDATES_PER_XORB, on which the slice would fail, is not modelled.
- Directory cleaning of file names (`filepath.Join`) and manifests that fail to decode are not part of the manifest cache model.
- %q escapes: histogram sources and names are word characters, as the shim's own calls pass; the text of a float is an arbitrary token.
- Word characters of the scraper's patterns are ASCII.
- The placement study's tier-2 simulation, its scope keys and its pandas loading and summaries.
