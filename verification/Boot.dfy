/** Boot (shim-go/main.go:100-104, shim-go/main.go:246-274): the LRU is rebuilt from the cache directory, and the
    node that results is one from which every run keeps the disk budget. */
module Boot {
  import opened Ages
  import opened Types
  import opened LruSpec
  import Lru
  import opened Node

  // ---- scanning the directory ----

  /** One os.ReadDir entry; info is absent when it cannot be statted. */
  datatype DirEntry = DirEntry(name: string, isDir: bool, info: Option<(nat, int)>)

  predicate Listed(e: DirEntry) {
    !e.isDir && !(e.name != [] && e.name[0] == '.') && e.info.Some?
  }

  function SeedOf(e: DirEntry): Lru.Seed
    requires Listed(e)
  {
    Aged(Entry(e.name, e.info.value.0), e.info.value.1)
  }

  function Seeds(listing: seq<DirEntry>): seq<Lru.Seed> {
    if listing == [] then []
    else
      var last := listing[|listing| - 1];
      Seeds(listing[..|listing| - 1]) + (if Listed(last) then [SeedOf(last)] else [])
  }

  /** seedLRU; listing is absent when the directory cannot be read. */
  method SeedLru(listing: Option<seq<DirEntry>>, lru: Lru.LruCache) returns (ghost sorted: seq<Lru.Seed>)
    requires lru.Valid()
    modifies lru, lru.elements
    ensures lru.Valid()
    ensures listing.None? ==> lru.Contents() == old(lru.Contents()) && lru.deleted == old(lru.deleted)
    ensures listing.Some? ==>
              && multiset(sorted) == multiset(Seeds(listing.value)) && ByAge(sorted)
              && lru.Contents() ==
                 Kept(Loaded(old(lru.Contents()), Lru.SeedEntries(sorted)), lru.lim, lru.gauge, old(lru.readings))
  {
    sorted := [];
    if listing.None? {
      return;
    }
    var seeds: seq<Lru.Seed> := [];
    for i := 0 to |listing.value|
      invariant seeds == Seeds(listing.value[..i])
    {
      var e := listing.value[i];
      assert listing.value[..i + 1][..i] == listing.value[..i];
      if Listed(e) {
        seeds := seeds + [SeedOf(e)];
      }
    }
    assert listing.value[..|listing.value|] == listing.value;
    sorted := lru.Load(seeds);
  }

  /** Exactly the regular, visible, stattable entries are seeded: temp-file debris and the manifests
      directory are not, and an entry whose stat failed is left untracked. */
  lemma {:induction false} SeedsAreListed(listing: seq<DirEntry>, seed: Lru.Seed)
    ensures seed in Seeds(listing) <==>
            exists i :: 0 <= i < |listing| && Listed(listing[i]) && SeedOf(listing[i]) == seed
    decreases |listing|
  {
    if listing != [] {
      var before, last := listing[..|listing| - 1], listing[|listing| - 1];
      SeedsAreListed(before, seed);
      if seed in Seeds(before) {
        var i :| 0 <= i < |before| && Listed(before[i]) && SeedOf(before[i]) == seed;
        assert listing[i] == before[i];
      }
      if i :| 0 <= i < |listing| && Listed(listing[i]) && SeedOf(listing[i]) == seed {
        if i < |before| {
          assert before[i] == listing[i];
        }
      }
    }
  }

  // ---- the node that boots ----

  /** The node after seedLRU: the seeds in order of age, less what the first eviction removed from disk. */
  function Booted(files: map<Key, Body>, seeds: seq<Entry<Key>>, lim: Limits, gauge: Gauge): Node {
    var loaded := Loaded([], seeds);
    Node(files - KeysIn(Dropped(loaded, lim, gauge, 0)), Kept(loaded, lim, gauge, 0),
         Free, [], [], map[], [], 0, [], None, NO_COUNTS, NO_TALLY)
  }

  lemma KeptMember(s: seq<Entry<Key>>, i: nat, e: Entry<Key>)
    requires i <= |s| && e in s && e.key !in KeysIn(s[..i])
    ensures e in s[i..]
  {
    assert s == s[..i] + s[i..];
  }

  /** Whatever files earlier runs left, a booted node starts within its budget, and every file still on disk
      is tracked at its size or is an orphan: one that the scan did not list. */
  lemma BootStartsWithinBudget(cfg: Config, files: map<Key, Body>, seeds: seq<Entry<Key>>, lim: Limits, gauge: Gauge)
    requires ValidConfig(cfg) && lim.max == cfg.max && Distinct(seeds)
    requires forall k :: k in files ==> Entry(k, |files[k]|) in seeds || Entry(k, |files[k]|) in cfg.orphans
    ensures Init(cfg, Booted(files, seeds, lim, gauge))
  {
    LoadedAll([], seeds);
    assert [] + seeds == seeds;
    var n := Booted(files, seeds, lim, gauge);
    var i := EvictCount(seeds, lim, gauge, 0);
    if 0 < cfg.max {
      KeptWithinBudget(seeds, lim, gauge, 0);
    }
    forall k | k in n.disk ensures Entry(k, |n.disk[k]|) in n.lru || Entry(k, |n.disk[k]|) in cfg.orphans {
      if Entry(k, |files[k]|) in seeds {
        KeptMember(seeds, i, Entry(k, |files[k]|));
      }
    }
    SuffixDistinct(seeds, i);
  }

  lemma SuffixDistinct(s: seq<Entry<Key>>, i: nat)
    requires Distinct(s) && i <= |s|
    ensures Distinct(s[i..])
  {
  }

  // ---- file names and keys ----

  /** The entries under the file names that name gives their keys. */
  function Named(s: seq<Entry<Key>>, name: Key -> string): (r: seq<Entry<string>>)
    ensures |r| == |s|
    ensures forall i :: 0 <= i < |s| ==> r[i] == Entry(name(s[i].key), s[i].size)
  {
    seq(|s|, i requires 0 <= i < |s| => Entry(name(s[i].key), s[i].size))
  }

  ghost predicate Injective(name: Key -> string) {
    forall a, b :: name(a) == name(b) ==> a == b
  }

  lemma {:induction false} NamedTotal(s: seq<Entry<Key>>, name: Key -> string)
    ensures Total(Named(s, name)) == Total(s)
  {
    if s != [] {
      assert Named(s, name)[1..] == Named(s[1..], name);
      NamedTotal(s[1..], name);
    }
  }

  /** Eviction looks at sizes only. */
  lemma {:induction false} NamedKept(s: seq<Entry<Key>>, name: Key -> string, lim: Limits, gauge: Gauge, reading: nat)
    ensures EvictCount(Named(s, name), lim, gauge, reading) == EvictCount(s, lim, gauge, reading)
    ensures Kept(Named(s, name), lim, gauge, reading) == Named(Kept(s, lim, gauge, reading), name)
  {
    NamedTotal(s, name);
    if s != [] {
      assert Named(s, name)[1..] == Named(s[1..], name);
      NamedKept(s[1..], name, lim, gauge, if Consults(lim, Total(s)) then reading + 1 else reading);
    }
  }

  lemma NamedHas(s: seq<Entry<Key>>, name: Key -> string, k: Key)
    requires Injective(name)
    ensures Has(Named(s, name), name(k)) <==> Has(s, k)
  {
    if i :| 0 <= i < |s| && s[i].key == k {
      assert Named(s, name)[i].key == name(k);
    }
    if i :| 0 <= i < |s| && Named(s, name)[i].key == name(k) {
      assert s[i].key == k;
    }
  }

  lemma {:induction false} NamedLoaded(s: seq<Entry<Key>>, seeds: seq<Entry<Key>>, name: Key -> string)
    requires Injective(name)
    ensures Loaded(Named(s, name), Named(seeds, name)) == Named(Loaded(s, seeds), name)
    decreases |seeds|
  {
    if seeds != [] {
      NamedHas(s, name, seeds[0].key);
      var next := if Has(s, seeds[0].key) then s else s + [seeds[0]];
      assert Named(next, name) ==
             if Has(s, seeds[0].key) then Named(s, name) else Named(s, name) + [Named(seeds, name)[0]];
      assert Named(seeds, name)[1..] == Named(seeds[1..], name);
      NamedLoaded(next, seeds[1..], name);
    }
  }

  /** The two accounts of boot agree: what seedLRU leaves in an empty accountant is the LRU of the booted node, its
      keys under their file names. */
  lemma SeededIsBooted(files: map<Key, Body>, seeds: seq<Entry<Key>>, name: Key -> string, lim: Limits, gauge: Gauge)
    requires Injective(name)
    ensures Kept(Loaded([], Named(seeds, name)), lim, gauge, 0) == Named(Booted(files, seeds, lim, gauge).lru, name)
  {
    assert Named([], name) == [];
    NamedLoaded([], seeds, name);
    NamedKept(Loaded([], seeds), name, lim, gauge, 0);
  }

  /** seedLRU on a fresh accountant: when the scanned files are those of the seeds in this order of age, the
      accountant ends as the booted node's LRU. */
  method SeedFresh(listing: seq<DirEntry>, lru: Lru.LruCache, ghost files: map<Key, Body>, ghost name: Key -> string)
    returns (ghost sorted: seq<Lru.Seed>)
    requires lru.Valid() && lru.Contents() == [] && lru.readings == 0 && Injective(name)
    modifies lru, lru.elements
    ensures lru.Valid() && ByAge(sorted) && multiset(sorted) == multiset(Seeds(listing))
    ensures forall seeds :: Lru.SeedEntries(sorted) == Named(seeds, name) ==>
              lru.Contents() == Named(Booted(files, seeds, lru.lim, lru.gauge).lru, name)
  {
    sorted := SeedLru(Some(listing), lru);
    forall seeds | Lru.SeedEntries(sorted) == Named(seeds, name)
      ensures lru.Contents() == Named(Booted(files, seeds, lru.lim, lru.gauge).lru, name)
    {
      SeededIsBooted(files, seeds, name, lru.lim, lru.gauge);
    }
  }
}
