/** The disk budget (shim-go/xorb.go:152-193, shim-go/lru.go:72-105, shim-go/main.go:100-104): what is on disk is
    tracked by the LRU, or written and not recorded yet, or an untracked leftover of an earlier run. */
module NodeDisk {
  import opened Types
  import opened Seqs
  import opened LruSpec
  import R = Race
  import opened Node
  import opened NodeShape

  /** The flight of key k has put a body of z bytes in place and not yet recorded it. */
  ghost predicate PendingWrite(n: Node, k: Key, z: nat) {
    k in n.sf && n.sf[k] < |n.flights| && n.flights[n.sf[k]].st.Written? && |n.flights[n.sf[k]].st.body| == z
  }

  /** Some account covers a file of z bytes under key k. */
  ghost predicate Covered(cfg: Config, n: Node, k: Key, z: nat) {
    || Entry(k, z) in n.lru
    || Entry(k, z) in cfg.orphans
    || (n.lock.Busy? && n.lock.popped == Some(Entry(k, z)))
    || PendingWrite(n, k, z)
  }

  ghost predicate FilesCovered(cfg: Config, n: Node) {
    forall k :: k in n.disk ==> Covered(cfg, n, k, |n.disk[k]|)
  }

  /** Until it is recorded, a written file holds the flight's body or has been evicted. */
  ghost predicate WrittenOk(n: Node) {
    forall f :: 0 <= f < |n.flights| && n.flights[f].st.Written? ==>
      n.flights[f].key in n.disk ==> n.disk[n.flights[f].key] == n.flights[f].st.body
  }

  function PoppedSize(lock: Lock): nat {
    if lock.Busy? && lock.popped.Some? then lock.popped.value.size else 0
  }

  function RecordingBytes(fl: Flight): int { if fl.st.Recording? then |fl.st.body| else 0 }
  function WrittenBytes(fl: Flight): int { if fl.st.Written? then |fl.st.body| else 0 }

  /** Bytes put in place by a flight whose Record has not returned. */
  function PendingBytes(fl: Flight): int { if fl.st.Written? || fl.st.Recording? then |fl.st.body| else 0 }

  /** The accounted bytes exceed the budget by no more than the body being recorded right now. */
  ghost predicate BudgetOk(cfg: Config, n: Node) {
    0 < cfg.max ==>
      if n.lock.Free? then Total(n.lru) <= cfg.max
      else n.lock.flight < |n.flights|
           && Total(n.lru) + PoppedSize(n.lock) <= cfg.max + RecordingBytes(n.flights[n.lock.flight])
  }

  ghost predicate DiskInv(cfg: Config, n: Node) {
    Distinct(n.lru) && FilesCovered(cfg, n) && WrittenOk(n) && BudgetOk(cfg, n)
  }

  // ---- one lemma per kind of change ----

  predicate SameFiles(n: Node, m: Node) {
    m.disk == n.disk && m.lru == n.lru && m.lock == n.lock
  }

  /** A flight that is neither written nor recording, before and after, does not matter to the disk. */
  lemma FlightIsIrrelevant(cfg: Config, n: Node, m: Node, f: nat)
    requires Shape(cfg, n) && DiskInv(cfg, n) && SameFiles(n, m)
    requires f < |n.flights| == |m.flights| && m.flights == n.flights[f := m.flights[f]]
    requires m.sf == n.sf || m.sf == n.sf - {n.flights[f].key}
    requires n.flights[f].st.Finished? ==> m.sf == n.sf
    requires !n.flights[f].st.Written? && !n.flights[f].st.Recording?
    requires !m.flights[f].st.Written? && !m.flights[f].st.Recording?
    ensures DiskInv(cfg, m)
  {
    forall k | k in m.disk ensures Covered(cfg, m, k, |m.disk[k]|) {
      assert Covered(cfg, n, k, |n.disk[k]|);
      if PendingWrite(n, k, |n.disk[k]|) {
        assert n.sf[k] != f;
        assert m.flights[n.sf[k]] == n.flights[n.sf[k]];
      }
    }
  }

  lemma SameFlightsKeep(cfg: Config, n: Node, m: Node)
    requires DiskInv(cfg, n) && SameFiles(n, m) && m.flights == n.flights && m.sf == n.sf
    ensures DiskInv(cfg, m)
  {
    forall k | k in m.disk ensures Covered(cfg, m, k, |m.disk[k]|) {
      assert Covered(cfg, n, k, |n.disk[k]|);
    }
  }

  lemma TouchKeepsDisk(cfg: Config, n: Node, r: nat)
    requires DiskInv(cfg, n) && Enabled(cfg, n, TouchHit(r))
    ensures DiskInv(cfg, Apply(cfg, n, TouchHit(r)))
  {
    TouchKeeps(n.lru, n.reqs[r].key);
    var m := Apply(cfg, n, TouchHit(r));
    forall k | k in m.disk ensures Covered(cfg, m, k, |m.disk[k]|) {
      assert Covered(cfg, n, k, |n.disk[k]|);
    }
  }

  lemma LeadKeepsDisk(cfg: Config, n: Node, r: nat)
    requires Shape(cfg, n) && DiskInv(cfg, n) && r < |n.reqs|
    ensures DiskInv(cfg, Miss(n, r))
  {
    var m := Miss(n, r);
    forall k | k in m.disk ensures Covered(cfg, m, k, |m.disk[k]|) {
      assert Covered(cfg, n, k, |n.disk[k]|);
    }
  }

  lemma FreeSlotKeepsDisk(cfg: Config, n: Node)
    requires Shape(cfg, n) && DiskInv(cfg, n) && (cfg.cap.Some? ==> 0 < n.used)
    ensures DiskInv(cfg, FreeSlot(cfg, n))
  {
    if cfg.cap.Some? {
      if n.queue != [] {
        assert n.queue[0] in n.queue;
        FlightIsIrrelevant(cfg, n, FreeSlot(cfg, n), n.queue[0]);
      } else {
        SameFlightsKeep(cfg, n, FreeSlot(cfg, n));
      }
    }
  }

  lemma RaceKeepsDisk(cfg: Config, n: Node, q: nat, rs: R.Step)
    requires Shape(cfg, n) && DiskInv(cfg, n) && q < |n.races| && RaceEnabled(cfg, n, q, rs)
    ensures DiskInv(cfg, AdvanceRace(cfg, n, q, rs))
  {
    var n1 := n.(races := n.races[q := n.races[q].(race := R.Apply(n.races[q].race, rs))],
                 c := n.c.(hedge := R.Book(n.c.hedge, n.races[q].race, rs)));
    R.StepKeepsInv(n.races[q].race, rs);
    assert RacesOk(n1);
    SameFlightsKeep(cfg, n, n1);
    if rs.CdnRelease? {
      FreeSlotKeepsDisk(cfg, n1);
    } else {
      SameFlightsKeep(cfg, n1, AdvanceRace(cfg, n, q, rs));
    }
  }

  lemma FileWritten(cfg: Config, n: Node, f: nat)
    requires Shape(cfg, n) && DiskInv(cfg, n) && f < |n.flights| && n.flights[f].st.Fetched?
    ensures DiskInv(cfg, StoreBody(n, f, true))
  {
    var m := StoreBody(n, f, true);
    var key := n.flights[f].key;
    forall k | k in m.disk ensures Covered(cfg, m, k, |m.disk[k]|) {
      if k == key {
        assert PendingWrite(m, k, |m.disk[k]|);
      } else {
        assert Covered(cfg, n, k, |n.disk[k]|);
      }
    }
  }

  lemma RecordStartKeepsDisk(cfg: Config, n: Node, f: nat)
    requires Shape(cfg, n) && DiskInv(cfg, n) && f < |n.flights| && n.flights[f].st.Written? && n.lock.Free?
    ensures DiskInv(cfg, Apply(cfg, n, RecordStart(f)))
  {
    var m := Apply(cfg, n, RecordStart(f));
    var key, body := n.flights[f].key, n.flights[f].st.body;
    PutKeeps(n.lru, key, |body|);
    forall k | k in m.disk ensures Covered(cfg, m, k, |m.disk[k]|) {
      assert Covered(cfg, n, k, |n.disk[k]|);
      if k == key {
        assert Entry(k, |m.disk[k]|) in m.lru;
      }
    }
  }

  lemma EvictPopKeepsDisk(cfg: Config, n: Node, low: bool)
    requires DiskInv(cfg, n) && Enabled(cfg, n, EvictPop(low))
    ensures DiskInv(cfg, Apply(cfg, n, EvictPop(low)))
  {
    var m := Apply(cfg, n, EvictPop(low));
    PopKeeps(n.lru);
    forall k | k in m.disk ensures Covered(cfg, m, k, |m.disk[k]|) {
      assert Covered(cfg, n, k, |n.disk[k]|);
    }
  }

  lemma EvictDelKeepsDisk(cfg: Config, n: Node)
    requires DiskInv(cfg, n) && Enabled(cfg, n, EvictDel)
    ensures DiskInv(cfg, Apply(cfg, n, EvictDel))
  {
    var m := Apply(cfg, n, EvictDel);
    forall k | k in m.disk ensures Covered(cfg, m, k, |m.disk[k]|) {
      assert Covered(cfg, n, k, |n.disk[k]|);
    }
  }

  lemma EvictEndKeepsDisk(cfg: Config, n: Node, low: bool)
    requires Shape(cfg, n) && DiskInv(cfg, n) && Enabled(cfg, n, EvictEnd(low))
    ensures DiskInv(cfg, Apply(cfg, n, EvictEnd(low)))
  {
    var m := Apply(cfg, n, EvictEnd(low));
    forall k | k in m.disk ensures Covered(cfg, m, k, |m.disk[k]|) {
      assert Covered(cfg, n, k, |n.disk[k]|);
    }
  }

  lemma WriteKeepsDisk(cfg: Config, n: Node, f: nat, ok: bool)
    requires Shape(cfg, n) && DiskInv(cfg, n) && Enabled(cfg, n, Write(f, ok))
    ensures DiskInv(cfg, StoreBody(n, f, ok))
  {
    if ok {
      FileWritten(cfg, n, f);
    } else {
      FlightIsIrrelevant(cfg, n, StoreBody(n, f, ok), f);
    }
  }

  lemma ReleaseKeepsDisk(cfg: Config, n: Node, f: nat)
    requires Shape(cfg, n) && DiskInv(cfg, n) && Enabled(cfg, n, Release(f))
    ensures DiskInv(cfg, Apply(cfg, n, Release(f)))
  {
    var result := n.flights[f].st.result;
    FlightIsIrrelevant(cfg, n, Finish(n, f, result), f);
    FlightFinishes(cfg, n, f, result);
    FreeSlotKeepsDisk(cfg, Finish(n, f, result));
  }

  lemma SearchStepKeepsDisk(cfg: Config, n: Node, step: Step)
    requires Shape(cfg, n) && DiskInv(cfg, n) && Enabled(cfg, n, step)
    requires step.Decide? || step.Probe? || step.RaceReturn?
    ensures DiskInv(cfg, Apply(cfg, n, step))
  {
    hide DiskInv, Shape;
    FlightIsIrrelevant(cfg, n, Apply(cfg, n, step), step.f);
  }

  lemma FlightStepKeepsDisk(cfg: Config, n: Node, step: Step)
    requires Shape(cfg, n) && DiskInv(cfg, n) && Enabled(cfg, n, step)
    requires step.Acquire? || step.Cancel? || step.Fetch? || step.Settle?
    ensures DiskInv(cfg, Apply(cfg, n, step))
  {
    hide DiskInv, Shape;
    FlightIsIrrelevant(cfg, n, Apply(cfg, n, step), step.f);
  }

  lemma StepKeepsDisk(cfg: Config, n: Node, step: Step)
    requires Shape(cfg, n) && DiskInv(cfg, n) && Enabled(cfg, n, step)
    ensures DiskInv(cfg, Apply(cfg, n, step))
  {
    hide DiskInv, Shape, Miss, AdvanceRace, FreeSlot, StoreBody, RaceEnabled, Distinct, Touch, Put;
    var m := Apply(cfg, n, step);
    match step
    case Arrive(_, _) => SameFlightsKeep(cfg, n, m);
    case ReadHit(_) => SameFlightsKeep(cfg, n, m);
    case ReadMiss(r) => LeadKeepsDisk(cfg, n, r);
    case TouchHit(r) => TouchKeepsDisk(cfg, n, r);
    case ServeHit(_) => SameFlightsKeep(cfg, n, m);
    case Decide(_, _) => SearchStepKeepsDisk(cfg, n, step);
    case RaceStep(q, rs) => RaceKeepsDisk(cfg, n, q, rs);
    case RaceReturn(_) => SearchStepKeepsDisk(cfg, n, step);
    case Probe(_, _, _, _) => SearchStepKeepsDisk(cfg, n, step);
    case Acquire(_) => FlightStepKeepsDisk(cfg, n, step);
    case Cancel(_) => FlightStepKeepsDisk(cfg, n, step);
    case Fetch(_, _, _) => FlightStepKeepsDisk(cfg, n, step);
    case Write(f, ok) => WriteKeepsDisk(cfg, n, f, ok);
    case RecordStart(f) => RecordStartKeepsDisk(cfg, n, f);
    case EvictPop(low) => EvictPopKeepsDisk(cfg, n, low);
    case EvictDel => EvictDelKeepsDisk(cfg, n);
    case EvictEnd(low) => EvictEndKeepsDisk(cfg, n, low);
    case Settle(_) => FlightStepKeepsDisk(cfg, n, step);
    case Release(f) => ReleaseKeepsDisk(cfg, n, f);
    case Wake(r) => FlightIsIrrelevant(cfg, n, m, n.reqs[r].st.flight);
  }

  lemma {:induction false} RunKeepsDisk(cfg: Config, first: Node, steps: seq<Step>, n: Node)
    requires Run(cfg, first, steps, n)
    ensures Shape(cfg, n) && DiskInv(cfg, n)
    decreases |steps|
  {
    if steps != [] {
      var before, last := steps[..|steps| - 1], steps[|steps| - 1];
      var m :| Run(cfg, first, before, m) && Enabled(cfg, m, last) && n == Apply(cfg, m, last);
      RunKeepsDisk(cfg, first, before, m);
      StepKeepsShape(cfg, m, last);
      StepKeepsDisk(cfg, m, last);
    }
  }

  // ---- real bytes on disk ----

  ghost function DiskBytes(disk: map<Key, Body>): nat
    decreases |disk|
  {
    if disk == map[] then 0
    else
      var k :| k in disk;
      |disk[k]| + DiskBytes(disk - {k})
  }

  lemma {:induction false} DiskBytesRemove(disk: map<Key, Body>, k: Key)
    requires k in disk
    ensures DiskBytes(disk) == |disk[k]| + DiskBytes(disk - {k})
    decreases |disk|
  {
    var j :| j in disk && DiskBytes(disk) == |disk[j]| + DiskBytes(disk - {j});
    if j != k {
      DiskBytesRemove(disk - {j}, k);
      DiskBytesRemove(disk - {k}, j);
      assert disk - {j} - {k} == disk - {k} - {j};
    }
  }

  /** Files covered by a list of entries weigh no more than the list. */
  lemma {:induction false} CoverBounds(disk: map<Key, Body>, cover: seq<Entry<Key>>)
    requires forall k :: k in disk ==> Entry(k, |disk[k]|) in cover
    ensures DiskBytes(disk) <= Total(cover)
    decreases |cover|
  {
    if cover == [] {
      assert disk == map[];
    } else {
      var e := cover[0];
      assert cover == [e] + cover[1..];
      if e.key in disk && |disk[e.key]| == e.size {
        DiskBytesRemove(disk, e.key);
        CoverBounds(disk - {e.key}, cover[1..]);
      } else {
        CoverBounds(disk, cover[1..]);
      }
    }
  }

  function WrittenEntries(flights: seq<Flight>): seq<Entry<Key>> {
    if flights == [] then []
    else if flights[0].st.Written? then
      [Entry(flights[0].key, |flights[0].st.body|)] + WrittenEntries(flights[1..])
    else WrittenEntries(flights[1..])
  }

  lemma {:induction false} WrittenTotal(flights: seq<Flight>)
    ensures Total(WrittenEntries(flights)) == Sum(flights, WrittenBytes)
    ensures forall f :: 0 <= f < |flights| && flights[f].st.Written? ==>
              Entry(flights[f].key, |flights[f].st.body|) in WrittenEntries(flights)
  {
    if flights != [] {
      WrittenTotal(flights[1..]);
      assert forall f :: 0 < f < |flights| ==> flights[f] == flights[1..][f - 1];
      if flights[0].st.Written? {
        assert WrittenEntries(flights)[1..] == WrittenEntries(flights[1..]);
      }
    }
  }

  function Popped(lock: Lock): seq<Entry<Key>> {
    if lock.Busy? && lock.popped.Some? then [lock.popped.value] else []
  }

  ghost function Cover(cfg: Config, n: Node): seq<Entry<Key>> {
    n.lru + cfg.orphans + Popped(n.lock) + WrittenEntries(n.flights)
  }

  lemma CoverTotal(cfg: Config, n: Node)
    ensures Total(Cover(cfg, n)) ==
            Total(n.lru) + Total(cfg.orphans) + PoppedSize(n.lock) + Sum(n.flights, WrittenBytes)
  {
    WrittenTotal(n.flights);
    TotalConcat(n.lru + cfg.orphans + Popped(n.lock), WrittenEntries(n.flights));
    TotalConcat(n.lru + cfg.orphans, Popped(n.lock));
    TotalConcat(n.lru, cfg.orphans);
  }

  lemma CoverHasFiles(cfg: Config, n: Node, k: Key)
    requires SingleFlight(n) && FilesCovered(cfg, n) && k in n.disk
    ensures Entry(k, |n.disk[k]|) in Cover(cfg, n)
  {
    assert Covered(cfg, n, k, |n.disk[k]|);
    WrittenTotal(n.flights);
  }

  lemma AccountedWithinBudget(cfg: Config, n: Node)
    requires BudgetOk(cfg, n) && 0 < cfg.max
    ensures Total(n.lru) + PoppedSize(n.lock) + Sum(n.flights, WrittenBytes) <= cfg.max + Sum(n.flights, PendingBytes)
  {
    SumSplit(n.flights, WrittenBytes, RecordingBytes, PendingBytes);
    SumBounds(n.flights, RecordingBytes);
    if n.lock.Busy? {
      assert n.flights[n.lock.flight] in n.flights;
    }
  }

  /** In every reachable state of every run the files under the cache directory weigh at most the byte budget,
      plus what flights have put in place and not finished recording, plus the untracked leftovers of boot. */
  lemma DiskBudget(cfg: Config, first: Node, steps: seq<Step>, n: Node)
    requires Run(cfg, first, steps, n) && 0 < cfg.max
    ensures DiskBytes(n.disk) <= cfg.max + Sum(n.flights, PendingBytes) + Total(cfg.orphans)
  {
    RunKeepsDisk(cfg, first, steps, n);
    forall k | k in n.disk ensures Entry(k, |n.disk[k]|) in Cover(cfg, n) {
      CoverHasFiles(cfg, n, k);
    }
    CoverBounds(n.disk, Cover(cfg, n));
    CoverTotal(cfg, n);
    AccountedWithinBudget(cfg, n);
  }

  /** Key by key: a cached file is an LRU entry of the same size, a write pending its Record, the entry whose
      removal is under way, or an untracked leftover. */
  lemma FilesAreAccounted(cfg: Config, first: Node, steps: seq<Step>, n: Node, k: Key)
    requires Run(cfg, first, steps, n) && k in n.disk
    ensures Covered(cfg, n, k, |n.disk[k]|)
  {
    RunKeepsDisk(cfg, first, steps, n);
  }
}
