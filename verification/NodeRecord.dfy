/** A node's Record, taken apart into its steps, is the accountant's (shim-go/lru.go:72-105, shim-go/main.go:100-104):
    it ends with the entries that eviction keeps, and exactly the files of the dropped ones are gone. */
module NodeRecord {
  import opened Types
  import opened LruSpec
  import opened Node
  import opened NodeProgress

  /** The accountant's limits under a node's configuration. */
  predicate SameLimits(cfg: Config, lim: Limits) {
    lim.max == cfg.max && (cfg.floor <==> 0 < lim.minFree)
  }

  /** lru.mu is held for flight f, and no popped entry awaits its file's removal. */
  ghost predicate Evicting(n: Node, f: nat) {
    n.lock == Busy(f, None) && f < |n.flights| && n.flights[f].st.Recording?
  }

  /** The free-space reading is below the floor. */
  predicate Low(lim: Limits, free: Option<int>) { free.Some? && free.value < lim.minFree }

  lemma LimitsAgree(cfg: Config, lim: Limits, s: seq<Entry<Key>>, free: Option<int>)
    requires SameLimits(cfg, lim)
    ensures Over(cfg, s, Low(lim, free)) <==> OverLimit(lim, Total(s), free)
  {
  }

  lemma StepAhead(cfg: Config, n: Node, step: Step, rest: seq<Step>, m: Node)
    requires Enabled(cfg, n, step) && !step.Arrive? && OwnRun(cfg, Apply(cfg, n, step), rest, m)
    ensures OwnRun(cfg, n, [step] + rest, m)
  {
    hide Enabled, Apply;
    assert ([step] + rest)[1..] == rest;
  }

  /** The state in which f's Record has returned, less the files of the dropped keys. */
  function RecordEnd(n: Node, f: nat, lru: seq<Entry<Key>>, gone: set<Key>): Node
    requires f < |n.flights| && n.flights[f].st.Recording?
  {
    n.(disk := n.disk - gone, lru := lru, lock := Free,
       flights := n.flights[f := n.flights[f].(st := Recorded(n.flights[f].st.body, n.flights[f].st.via))])
  }

  lemma NothingGone(disk: map<Key, Body>)
    ensures disk - {} == disk && KeysIn<Key>([]) == {}
  {
  }

  lemma OneMoreGone(disk: map<Key, Body>, e: Entry<Key>, rest: seq<Entry<Key>>)
    ensures disk - {e.key} - KeysIn(rest) == disk - KeysIn([e] + rest)
  {
    assert KeysIn([e] + rest) == {e.key} + KeysIn(rest);
  }

  /** The front goes: the first of the dropped, and the rest decides what follows. */
  lemma FrontIsDropped(s: seq<Entry<Key>>, lim: Limits, gauge: Gauge, reading: nat)
    requires s != [] && OverLimit(lim, Total(s), Reading(gauge, reading))
    ensures var next := if Consults(lim, Total(s)) then reading + 1 else reading;
            && Kept(s, lim, gauge, reading) == Kept(s[1..], lim, gauge, next)
            && Dropped(s, lim, gauge, reading) == [s[0]] + Dropped(s[1..], lim, gauge, next)
  {
  }

  lemma {:induction false} EvictionIsRun(cfg: Config, n: Node, f: nat, lim: Limits, gauge: Gauge, reading: nat)
    returns (steps: seq<Step>)
    requires SameLimits(cfg, lim) && Evicting(n, f)
    ensures OwnRun(cfg, n, steps, RecordEnd(n, f, Kept(n.lru, lim, gauge, reading),
                                            KeysIn(Dropped(n.lru, lim, gauge, reading))))
    decreases |n.lru|
  {
    var free := Reading(gauge, reading);
    LimitsAgree(cfg, lim, n.lru, free);
    if n.lru != [] && OverLimit(lim, Total(n.lru), free) {
      FrontIsDropped(n.lru, lim, gauge, reading);
      var next := if Consults(lim, Total(n.lru)) then reading + 1 else reading;
      var popped := Apply(cfg, n, EvictPop(Low(lim, free)));
      var gone := Apply(cfg, popped, EvictDel);
      var rest := EvictionIsRun(cfg, gone, f, lim, gauge, next);
      OneMoreGone(n.disk, n.lru[0], Dropped(n.lru[1..], lim, gauge, next));
      var end := RecordEnd(n, f, Kept(n.lru, lim, gauge, reading), KeysIn(Dropped(n.lru, lim, gauge, reading)));
      StepAhead(cfg, popped, EvictDel, rest, end);
      StepAhead(cfg, n, EvictPop(Low(lim, free)), [EvictDel] + rest, end);
      steps := [EvictPop(Low(lim, free))] + ([EvictDel] + rest);
    } else {
      NothingGone(n.disk);
      var end := RecordEnd(n, f, Kept(n.lru, lim, gauge, reading), KeysIn(Dropped(n.lru, lim, gauge, reading)));
      assert Apply(cfg, n, EvictEnd(Low(lim, free))) == end;
      assert OwnRun(cfg, end, [], end);
      StepAhead(cfg, n, EvictEnd(Low(lim, free)), [], end);
      steps := [EvictEnd(Low(lim, free))] + [];
    }
  }

  /** An undisturbed Record of a written body: a run of the node's steps that leaves the accountant's contents and
      removes exactly the dropped keys' files. */
  lemma RecordIsRun(cfg: Config, n: Node, f: nat, lim: Limits, gauge: Gauge, reading: nat)
    returns (steps: seq<Step>, m: Node)
    requires SameLimits(cfg, lim) && Enabled(cfg, n, RecordStart(f))
    ensures OwnRun(cfg, n, steps, m)
    ensures var recorded := Put(n.lru, n.flights[f].key, |n.flights[f].st.body|);
            && m.lru == Kept(recorded, lim, gauge, reading)
            && m.disk == n.disk - KeysIn(Dropped(recorded, lim, gauge, reading))
            && m.lock.Free?
            && m.flights == n.flights[f := n.flights[f].(st := Recorded(n.flights[f].st.body, n.flights[f].st.via))]
  {
    var began := Apply(cfg, n, RecordStart(f));
    var rest := EvictionIsRun(cfg, began, f, lim, gauge, reading);
    m := RecordEnd(began, f, Kept(began.lru, lim, gauge, reading), KeysIn(Dropped(began.lru, lim, gauge, reading)));
    StepAhead(cfg, n, RecordStart(f), rest, m);
    steps := [RecordStart(f)] + rest;
  }
}
